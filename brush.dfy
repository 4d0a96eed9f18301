/**
 * The Brush tool's paint budget: `brushPaint` units remain and
 * `brushDepleted` is raised when they run out. Each brush dab spends one
 * unit; once depleted, dabs paint nothing until the Tools dialog refills
 * the budget.
 */
module BrushPaint {
  import opened Canvas

  datatype BrushState = BrushState(paint: int, depleted: bool)

  /** The guard of the Brush case in Draw. */
  predicate CanPaint(s: BrushState)
  {
    !s.depleted && s.paint > 0
  }

  /** The budget after one brush dab. */
  function Dab(s: BrushState): (r: BrushState)
    ensures r.paint <= s.paint
    ensures r != s <==> CanPaint(s)
  {
    if CanPaint(s) then
      var left := s.paint - 1;
      BrushState(left, left <= 0)
    else s
  }

  /** The state the Tools dialog leaves when Brush is confirmed with capacity `max`. */
  function Refill(max: int): BrushState
  {
    BrushState(max, false)
  }

  /** The circle one brush dab fills: radius `size`, centred exactly on the pointer. */
  function DabBox(at: Point, size: int): (r: Rect)
    ensures 2 * (at.x - r.x) == r.w == 2 * size && 2 * (at.y - r.y) == r.h == 2 * size
  {
    Rect(at.x - size, at.y - size, size * 2, size * 2)
  }

  /** The budget after `n` dabs in a row. */
  function Dabs(s: BrushState, n: nat): BrushState
  {
    if n == 0 then s else Dab(Dabs(s, n - 1))
  }

  /** How many of `n` dabs in a row actually painted a circle. */
  function CirclesDrawn(s: BrushState, n: nat): nat
  {
    if n == 0 then 0
    else CirclesDrawn(s, n - 1) + (if CanPaint(Dabs(s, n - 1)) then 1 else 0)
  }

  /** A single dab that paints spends exactly one unit and reports depletion exactly at zero. */
  lemma DabSpendsOne(s: BrushState)
    requires CanPaint(s)
    ensures Dab(s).paint == s.paint - 1
    ensures Dab(s).depleted <==> Dab(s).paint <= 0
  {
  }

  /** Over any run of dabs the remaining paint never increases. */
  lemma {:induction false} DabsNeverIncrease(s: BrushState, n: nat)
    ensures Dabs(s, n).paint <= s.paint
  {
    if n > 0 {
      DabsNeverIncrease(s, n - 1);
    }
  }

  /** A brush that cannot paint stays exactly as it is, however many dabs follow. */
  lemma {:induction false} DepletedIsStable(s: BrushState, n: nat)
    requires !CanPaint(s)
    ensures Dabs(s, n) == s
    ensures CirclesDrawn(s, n) == 0
  {
    if n > 0 {
      DepletedIsStable(s, n - 1);
    }
  }

  /**
   * A freshly refilled brush of capacity `max` spends one unit per dab,
   * is depleted after exactly `max` dabs, and from then on stays empty.
   */
  lemma {:induction false} RefillLastsMaxDabs(max: int, n: nat)
    requires max >= 1
    ensures n <= max ==> Dabs(Refill(max), n) == BrushState(max - n, n == max)
    ensures n >= max ==> Dabs(Refill(max), n) == BrushState(0, true)
  {
    if n > 0 {
      RefillLastsMaxDabs(max, n - 1);
    }
  }

  /** Of `n` dabs after a refill to `max`, exactly min(n, max) paint a circle. */
  lemma {:induction false} RefillPaintsMinDabs(max: int, n: nat)
    requires max >= 1
    ensures CirclesDrawn(Refill(max), n) == if n <= max then n else max
  {
    if n > 0 {
      RefillPaintsMinDabs(max, n - 1);
      RefillLastsMaxDabs(max, n - 1);
    }
  }
}
