/**
 * The stage table of the ROI calculator, `multiplierStages`: four loops push
 * one entry per tenth of a revenue multiplier, from 1.0 to 5.0. Levels are
 * integer tenths here (10 stands for 1.0).
 */
module MultiplierStages {

  /** The loop that produced an entry, shown as the prefix of its title. */
  datatype Era = Hardware | Software | Advanced | Premium

  /** The description: the era's milestone text, or "... - N% progress". */
  datatype Blurb = Unlocked | InProgress(percent: nat)

  datatype Stage = Stage(level: int, era: Era, blurb: Blurb)

  /** The number of entries: 11 from the first loop, 10 from each of the others. */
  const StageCount: nat := 41

  /** The entry the first loop pushes for `i` in 0..10: level 1 + i/10, progress `(i + 1) * 10`. */
  function HardwareStage(i: nat): Stage
  {
    Stage(10 + i, Hardware, if i == 10 then Unlocked else InProgress((i + 1) * 10))
  }

  /** The entry a later loop pushes for `i` in 1..10: level `base` + i/10, progress `i * 10`. */
  function LaterStage(era: Era, base: int, i: nat): Stage
  {
    Stage(base + i, era, if i == 10 then Unlocked else InProgress(i * 10))
  }

  /** Entry `k` of the table, written directly by index. */
  function StageAt(k: nat): Stage
    requires k < StageCount
  {
    if k <= 10 then HardwareStage(k)
    else if k <= 20 then LaterStage(Software, 20, k - 10)
    else if k <= 30 then LaterStage(Advanced, 30, k - 20)
    else LaterStage(Premium, 40, k - 30)
  }

  function Stages(): (s: seq<Stage>)
    ensures |s| == StageCount
  {
    seq(StageCount, (k: nat) requires k < StageCount => StageAt(k))
  }

  /**
   * `generateStages`: the four loops of the source, pushing onto a list.
   * The table it builds is `Stages()`.
   */
  method GenerateStages() returns (stages: seq<Stage>)
    ensures stages == Stages()
    ensures forall k :: 0 <= k < |stages| ==> stages[k].level == 10 + k
  {
    stages := [];
    for i := 0 to 11
      invariant |stages| == i
      invariant forall k :: 0 <= k < i ==> stages[k] == StageAt(k)
    {
      stages := stages + [HardwareStage(i)];
    }
    for i := 1 to 11
      invariant |stages| == 10 + i
      invariant forall k :: 0 <= k < 10 + i ==> stages[k] == StageAt(k)
    {
      stages := stages + [LaterStage(Software, 20, i)];
    }
    for i := 1 to 11
      invariant |stages| == 20 + i
      invariant forall k :: 0 <= k < 20 + i ==> stages[k] == StageAt(k)
    {
      stages := stages + [LaterStage(Advanced, 30, i)];
    }
    for i := 1 to 11
      invariant |stages| == 30 + i
      invariant forall k :: 0 <= k < 30 + i ==> stages[k] == StageAt(k)
    {
      stages := stages + [LaterStage(Premium, 40, i)];
    }
  }

  /**
   * Entry k has level 1.0 + k/10, so levels rise strictly from 1.0 to 5.0;
   * the era is fixed by the index range of the loop that pushed the entry.
   */
  lemma StageLevels()
    ensures forall k :: 0 <= k < StageCount ==> Stages()[k].level == 10 + k
    ensures forall i, j :: 0 <= i < j < StageCount ==> Stages()[i].level < Stages()[j].level
    ensures Stages()[0].level == 10 && Stages()[StageCount - 1].level == 50
    ensures forall k :: 0 <= k < StageCount ==>
      Stages()[k].era == (if k <= 10 then Hardware else if k <= 20 then Software
                          else if k <= 30 then Advanced else Premium)
  {
  }

  /**
   * Each era ends on its milestone text; the first loop's percentages run
   * one step ahead of the others', up to "100% progress" at level 1.9.
   */
  lemma StageBlurbs()
    ensures Stages()[9].blurb == InProgress(100)
    ensures forall k :: k in {10, 20, 30, 40} ==> Stages()[k].blurb == Unlocked
    ensures forall k :: 0 <= k < StageCount && k % 10 != 0 ==>
      Stages()[k].blurb == InProgress(if k < 10 then (k + 1) * 10 else (k % 10) * 10)
  {
    forall k | 0 <= k < StageCount && k % 10 != 0
      ensures Stages()[k].blurb == InProgress(if k < 10 then (k + 1) * 10 else (k % 10) * 10)
    {
      assert 11 <= k <= 19 ==> k - 10 == k % 10;
      assert 21 <= k <= 29 ==> k - 20 == k % 10;
      assert 31 <= k <= 39 ==> k - 30 == k % 10;
    }
  }
}
