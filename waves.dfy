/** The wave director: `generateWave` (GameCanvas.tsx:122-167), a pure function
    from the wave index to the manifest of enemy groups for that wave. */
module WaveDirector {
  import opened GameTypes

  /** Every fifth wave, wave 0 excepted, is a boss wave. */
  predicate IsBossWave(waveNum: nat): (b: bool)
    ensures b ==> waveNum >= BOSS_WAVE_INTERVAL
  {
    waveNum % BOSS_WAVE_INTERVAL == 0 && waveNum > 0
  }

  /** The difficulty scalar that every group count grows with. */
  function Difficulty(waveNum: nat): (d: nat)
    ensures 2 * d <= waveNum <= 2 * d + 1
  {
    waveNum / 2
  }

  /** The four non-boss templates, in rotation order, at a given difficulty. */
  function Templates(difficulty: nat): (t: seq<WaveConfig>)
    ensures |t| == 4
    ensures forall c :: c in t ==> !c.isBossWave && |c.enemies| >= 1
    ensures forall c, g :: c in t && g in c.enemies ==> g.count >= 1 && g.delay > 0 && g.kind != Boss
  {
    [
      WaveConfig([WaveGroup(Basic, 4 + difficulty * 2, 30)], false),
      WaveConfig([WaveGroup(Basic, 3 + difficulty, 25), WaveGroup(Zigzag, 2 + difficulty, 30)], false),
      WaveConfig([WaveGroup(Zigzag, 3 + difficulty, 25), WaveGroup(Swooper, 2 + difficulty, 35)], false),
      WaveConfig([WaveGroup(Basic, 2 + difficulty, 20), WaveGroup(Tank, 1 + difficulty / 2, 50),
                  WaveGroup(Zigzag, 2 + difficulty, 25)], false)
    ]
  }

  function GenerateWave(waveNum: nat): (c: WaveConfig)
    ensures c.isBossWave <==> IsBossWave(waveNum)
    ensures |c.enemies| >= 1
    ensures forall g :: g in c.enemies ==> g.count >= 1 && g.delay > 0
    ensures forall g :: g in c.enemies ==> (g.kind == Boss <==> c.isBossWave && g == WaveGroup(Boss, 1, 60))
  {
    var difficulty := Difficulty(waveNum);
    if IsBossWave(waveNum) then
      WaveConfig([WaveGroup(Basic, 2 + difficulty, 20), WaveGroup(Boss, 1, 60)], true)
    else
      Templates(difficulty)[waveNum % |Templates(difficulty)|]
  }

  /** The number of boss enemies a manifest asks for. */
  function BossCount(groups: seq<WaveGroup>): nat {
    if groups == [] then 0
    else (if groups[0].kind == Boss then groups[0].count else 0) + BossCount(groups[1..])
  }

  /** A boss wave's manifest is a basic escort of 2 + floor(n/2) enemies with
      delay 20, then exactly one boss with delay 60; no other wave has a boss.
      The boss's own delay is never used by the schedule: it enters 20 frames
      after the last escort (see `BossArrival`). */
  lemma BossWaveManifest(waveNum: nat)
    ensures IsBossWave(waveNum) ==>
      GenerateWave(waveNum).enemies == [WaveGroup(Basic, 2 + waveNum / 2, 20), WaveGroup(Boss, 1, 60)]
    ensures BossCount(GenerateWave(waveNum).enemies) == if IsBossWave(waveNum) then 1 else 0
  {
    var c := GenerateWave(waveNum);
    if IsBossWave(waveNum) {
      var escort, boss := WaveGroup(Basic, 2 + waveNum / 2, 20), WaveGroup(Boss, 1, 60);
      assert c.enemies == [escort, boss];
      assert [escort, boss][1..] == [boss];
      assert BossCount([boss]) == 1 by { assert [boss][1..] == []; }
    } else {
      NoBossGroups(c.enemies);
    }
  }

  lemma {:induction false} NoBossGroups(groups: seq<WaveGroup>)
    requires forall g :: g in groups ==> g.kind != Boss
    ensures BossCount(groups) == 0
  {
    if groups != [] {
      assert groups[0] in groups;
      NoBossGroups(groups[1..]);
    }
  }

  /** Two non-boss waves in the same slot of the rotation have the same groups,
      types and delays, and the later wave never has fewer enemies in any group. */
  lemma {:induction false} TemplateCountsGrow(n: nat, m: nat)
    requires n <= m && n % 4 == m % 4
    requires !IsBossWave(n) && !IsBossWave(m)
    ensures |GenerateWave(n).enemies| == |GenerateWave(m).enemies|
    ensures forall i :: 0 <= i < |GenerateWave(n).enemies| ==>
      GenerateWave(n).enemies[i].kind == GenerateWave(m).enemies[i].kind &&
      GenerateWave(n).enemies[i].delay == GenerateWave(m).enemies[i].delay &&
      GenerateWave(n).enemies[i].count <= GenerateWave(m).enemies[i].count
  {
    var dn, dm := Difficulty(n), Difficulty(m);
    var k := n % 4;
    assert GenerateWave(n) == Templates(dn)[k];
    assert GenerateWave(m) == Templates(dm)[k];
    SlotGrows(dn, dm, k);
  }

  /** Slot k of the rotation at a higher difficulty has the same groups, each
      at least as large. */
  lemma SlotGrows(dn: nat, dm: nat, k: nat)
    requires dn <= dm && k < 4
    ensures var a, b := Templates(dn)[k].enemies, Templates(dm)[k].enemies;
      |a| == |b| &&
      forall i :: 0 <= i < |a| ==> a[i].kind == b[i].kind && a[i].delay == b[i].delay && a[i].count <= b[i].count
  {
    assert dn / 2 <= dm / 2;
    assert dn * 2 <= dm * 2;
  }

  /** The boss-wave escort also grows with the wave index. */
  lemma EscortGrows(n: nat, m: nat)
    requires n <= m && IsBossWave(n) && IsBossWave(m)
    ensures GenerateWave(n).enemies[0].count <= GenerateWave(m).enemies[0].count
  {
    BossWaveManifest(n);
    BossWaveManifest(m);
  }

  /** Wave 5 is the first boss wave; waves 0, 4 and 6 come from the rotation. */
  lemma FirstBossWave()
    ensures GenerateWave(5).isBossWave
    ensures !GenerateWave(0).isBossWave && !GenerateWave(4).isBossWave && !GenerateWave(6).isBossWave
  {
  }
}
