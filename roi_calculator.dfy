/**
 * The ROI calculator: after a base revenue is entered, a timer walks the
 * stage table one entry per tick and keeps the revenue multiplier equal to
 * the current entry's level; the projections and the product category card
 * are computed from that multiplier.
 */
module ROICalculator {
  import opened Wrappers
  import opened MultiplierStages

  /** A multiplier of `tenths` tenths as a number (20 is 2.0). */
  function LevelValue(tenths: int): real
  {
    tenths as real / 10.0
  }

  datatype Projection = Projection(
    projectedRevenue: real, additionalRevenue: real, implementationCost: real, roi: real)

  /** JavaScript truthiness of the revenue input: neither null nor 0. */
  predicate RevenueGiven(baseRevenue: Option<real>)
  {
    baseRevenue.Some? && baseRevenue.value != 0.0
  }

  /** `calculateProjections`, exact over the reals: null for a falsy revenue. */
  function Projections(baseRevenue: Option<real>, multiplier: int): (r: Option<Projection>)
    ensures r.Some? <==> RevenueGiven(baseRevenue)
    ensures r.Some? ==>
      var b, m := baseRevenue.value, LevelValue(multiplier);
      && r.value.additionalRevenue == b * (m - 1.0)
      && r.value.implementationCost == b * 0.15
      && r.value.projectedRevenue == b * m
      && r.value.implementationCost != 0.0
      && r.value.roi == (r.value.additionalRevenue - r.value.implementationCost) / r.value.implementationCost * 100.0
  {
    if !RevenueGiven(baseRevenue) then None
    else
      var b, m := baseRevenue.value, LevelValue(multiplier);
      var additional := b * (m - 1.0);
      var cost := b * 0.15;
      Some(Projection(b * m, additional, cost, (additional - cost) / cost * 100.0))
  }

  /**
   * The projected revenue is the base plus the additional revenue, and the
   * ROI depends on the multiplier only: `(m - 1.15) / 0.15 * 100`, whatever
   * the revenue (negative revenues included).
   */
  lemma ProjectionIdentities(b: real, multiplier: int)
    requires b != 0.0
    ensures var p := Projections(Some(b), multiplier).value;
      && p.projectedRevenue == b + p.additionalRevenue
      && p.roi == (LevelValue(multiplier) - 1.15) / 0.15 * 100.0
  {
    var m := LevelValue(multiplier);
    var p := Projections(Some(b), multiplier).value;
    var q := (m - 1.15) / 0.15;
    assert p.additionalRevenue - p.implementationCost == b * 0.15 * q;
    assert (b * 0.15 * q) / (b * 0.15) == q;
  }

  /** The ROI is positive exactly from multiplier 1.2 on. */
  lemma RoiPositiveFromLevel12(b: real, multiplier: int)
    requires b != 0.0
    ensures Projections(Some(b), multiplier).value.roi > 0.0 <==> multiplier >= 12
  {
    ProjectionIdentities(b, multiplier);
  }

  /** Revenue 10000 at multiplier 2.0. */
  lemma ProjectionExample()
    ensures var p := Projections(Some(10000.0), 20).value;
      && p.additionalRevenue == 10000.0 && p.implementationCost == 1500.0
      && p.projectedRevenue == 20000.0 && p.roi == 1700.0 / 3.0
  {
  }

  /** A product category card; it applies to multipliers in `[lo, hi)`. */
  datatype Category = Category(name: string, lo: int, hi: int, description: string, features: seq<string>)

  function Categories(): seq<Category>
  {
    [
      Category("Hardware Product", 1, 2, "Traditional hardware with basic capabilities",
        ["Physical Product", "Manual Operation", "Basic Functions"]),
      Category("Connected Product", 2, 3, "Hardware enhanced with software features",
        ["Remote Monitoring", "Basic Analytics", "Mobile App"]),
      Category("Intelligent Product", 3, 4, "AI-powered smart product",
        ["AI Optimization", "Predictive Analytics", "Digital Twin"]),
      Category("Software Platform", 4, 5, "Complete software-defined ecosystem",
        ["Full Automation", "App Marketplace", "Developer SDK"])
    ]
  }

  predicate Contains(c: Category, m: real)
  {
    c.lo as real <= m < c.hi as real
  }

  /** `stages.find(...)`: the first category whose range contains `m`. */
  function FindCategory(cats: seq<Category>, m: real): (r: Option<Category>)
    ensures r.Some? ==> r.value in cats && Contains(r.value, m)
    ensures r.None? <==> forall k :: 0 <= k < |cats| ==> !Contains(cats[k], m)
  {
    if cats == [] then None
    else if Contains(cats[0], m) then Some(cats[0])
    else FindCategory(cats[1..], m)
  }

  /** The card shown for multiplier `m`. */
  function CurrentCategory(m: real): (r: Option<Category>)
    ensures r.Some? <==> 1.0 <= m < 5.0
    ensures r.Some? ==> Contains(r.value, m) && r.value.hi == r.value.lo + 1
  {
    var cs := Categories();
    assert forall k :: 0 <= k < |cs| ==> cs[k].lo == k + 1 && cs[k].hi == k + 2;
    assert 1.0 <= m < 5.0 ==> 0 <= m.Floor - 1 < |cs| && Contains(cs[m.Floor - 1], m);
    FindCategory(cs, m)
  }

  /** The ranges are disjoint, so at most one category contains any multiplier. */
  lemma CategoriesDisjoint(m: real)
    ensures forall i, j :: 0 <= i < j < |Categories()| ==>
      !(Contains(Categories()[i], m) && Contains(Categories()[j], m))
  {
  }

  lemma CategoryExamples()
    ensures CurrentCategory(1.0).value.name == "Hardware Product"
    ensures CurrentCategory(2.5).value.name == "Connected Product"
    ensures CurrentCategory(3.99).value.name == "Intelligent Product"
    ensures CurrentCategory(4.9).value.name == "Software Platform"
    ensures CurrentCategory(5.0) == None
  {
  }

  /** Every stage but the last has a card; at level 5.0 no card is shown. */
  lemma StageCategories()
    ensures forall k :: 0 <= k < StageCount - 1 ==> CurrentCategory(LevelValue(Stages()[k].level)).Some?
    ensures CurrentCategory(LevelValue(Stages()[StageCount - 1].level)) == None
  {
    StageLevels();
  }

  /** The position of `m` inside its card's range, as a bar width in percent. */
  function BarWidth(c: Category, m: real): (w: real)
    requires c.lo < c.hi && Contains(c, m)
    ensures 0.0 <= w < 100.0
  {
    var x, d := m - c.lo as real, c.hi as real - c.lo as real;
    FractionBelowOne(x, d);
    x / d * 100.0
  }

  lemma FractionBelowOne(x: real, d: real)
    requires 0.0 <= x < d
    ensures 0.0 <= x / d < 1.0
  {
    assert x / d * d == x;
  }

  /** The state of one timer-driven walk: the stage index and whether it still animates. */
  datatype Walk = Walk(stage: nat, animating: bool)

  /**
   * One run of the timer effect: while animating and before the last entry,
   * move one entry on; at the last entry, stop animating.
   */
  function WalkTick(w: Walk): Walk
  {
    if w.animating && w.stage < StageCount - 1 then Walk(w.stage + 1, true)
    else if w.stage == StageCount - 1 then Walk(w.stage, false)
    else w
  }

  function AfterTicks(w: Walk, n: nat): Walk
    decreases n
  {
    if n == 0 then w else AfterTicks(WalkTick(w), n - 1)
  }

  /** Ticks never take the stage index past the last entry. */
  lemma {:induction false} TicksStayInTable(w: Walk, n: nat)
    requires w.stage < StageCount
    ensures w.stage <= AfterTicks(w, n).stage < StageCount
    decreases n
  {
    if n > 0 {
      TicksStayInTable(WalkTick(w), n - 1);
    }
  }

  /** Animating from entry k, the walk is at entry k + n after n ticks (not beyond the end). */
  lemma {:induction false} WalkAdvances(k: nat, n: nat)
    requires k + n <= StageCount - 1
    ensures AfterTicks(Walk(k, true), n) == Walk(k + n, true)
    decreases n
  {
    if n > 0 {
      WalkAdvances(k + 1, n - 1);
    }
  }

  /** A walk started at entry 0 reaches the last entry after 40 ticks and stops at the 41st. */
  lemma WalkCompletes()
    ensures AfterTicks(Walk(0, true), StageCount - 1) == Walk(StageCount - 1, true)
    ensures AfterTicks(Walk(0, true), StageCount) == Walk(StageCount - 1, false)
  {
    WalkAdvances(0, StageCount - 1);
    AfterTicksSplit(Walk(0, true), StageCount - 1);
  }

  lemma {:induction false} AfterTicksSplit(w: Walk, n: nat)
    ensures AfterTicks(w, n + 1) == WalkTick(AfterTicks(w, n))
    decreases n
  {
    if n > 0 {
      AfterTicksSplit(WalkTick(w), n - 1);
    }
  }

  class Calculator {
    var baseRevenue: Option<real>
    var softwareMultiplier: int
    var isStarted: bool
    var currentStage: nat
    var isAnimating: bool

    /** The multiplier is always the level of the current entry of the table. */
    ghost predicate Valid()
      reads this
    {
      currentStage < StageCount && softwareMultiplier == Stages()[currentStage].level
    }

    constructor ()
      ensures Valid()
      ensures baseRevenue == None && softwareMultiplier == 10 && !isStarted
      ensures currentStage == 0 && !isAnimating
    {
      baseRevenue, softwareMultiplier, isStarted, currentStage, isAnimating := None, 10, false, 0, false;
    }

    /** The revenue input: `Number(e.target.value)`, so an emptied field gives 0. */
    method SetBaseRevenue(value: real)
      requires Valid()
      modifies this
      ensures Valid() && baseRevenue == Some(value)
      ensures softwareMultiplier == old(softwareMultiplier) && isStarted == old(isStarted)
      ensures currentStage == old(currentStage) && isAnimating == old(isAnimating)
    {
      baseRevenue := Some(value);
    }

    /** `startJourney`: ignored for a falsy revenue, otherwise restarts the walk at entry 0. */
    method StartJourney()
      requires Valid()
      modifies this
      ensures Valid()
      ensures !RevenueGiven(old(baseRevenue)) ==> unchanged(this)
      ensures RevenueGiven(old(baseRevenue)) ==>
        isStarted && isAnimating && currentStage == 0 && softwareMultiplier == 10
        && baseRevenue == old(baseRevenue)
    {
      if !RevenueGiven(baseRevenue) {
        return;
      }
      isStarted := true;
      isAnimating := true;
      currentStage := 0;
      softwareMultiplier := 10;
    }

    /** One firing of the stage-advance timer. */
    method Tick()
      requires Valid()
      modifies this
      ensures Valid()
      ensures Walk(currentStage, isAnimating) == WalkTick(Walk(old(currentStage), old(isAnimating)))
      ensures softwareMultiplier == Stages()[currentStage].level
      ensures baseRevenue == old(baseRevenue) && isStarted == old(isStarted)
    {
      if isAnimating && currentStage < |Stages()| - 1 {
        softwareMultiplier := Stages()[currentStage + 1].level;
        currentStage := currentStage + 1;
      } else if currentStage == |Stages()| - 1 {
        isAnimating := false;
      }
    }

    /** The projections shown for the current inputs. */
    function CurrentProjections(): (r: Option<Projection>)
      reads this
      requires Valid()
      ensures r.Some? <==> RevenueGiven(baseRevenue)
      ensures r.Some? ==> r.value.projectedRevenue == baseRevenue.value * LevelValue(Stages()[currentStage].level)
      ensures r == Projections(baseRevenue, Stages()[currentStage].level)
    {
      Projections(baseRevenue, softwareMultiplier)
    }
  }
}
