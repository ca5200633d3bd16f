/**
 * The completion screen (completionController.js): the confetti colour
 * cycler and the "start over" button. The confetti animation itself is not
 * part of this model.
 */
module Completion {
  import opened Wrappers
  import opened Navigation

  /** The twelve confetti colours, in cycling order. */
  const Palette: seq<string> := ["DodgerBlue", "OliveDrab", "Gold", "pink", "SlateBlue", "lightblue",
                                 "Violet", "PaleGreen", "SteelBlue", "SandyBrown", "Chocolate", "Crimson"]

  /** `colorIndex` after `k` calls of `getColor` from a fresh cycler. */
  function CycleIndex(k: nat): nat
  {
    if k == 0 then 0 else ((k - 1) / 10) % 12
  }

  /** `colorIncrementer` after `k` calls of `getColor` from a fresh cycler. */
  function CycleCount(k: nat): nat
  {
    if k == 0 then 0 else (k - 1) % 10 + 1
  }

  /** One `getColor` update takes the state after `k` calls to the state after `k + 1`. */
  lemma CycleStep(k: nat)
    ensures CycleCount(k + 1) == if CycleCount(k) >= 10 then 1 else CycleCount(k) + 1
    ensures CycleIndex(k + 1) ==
      if CycleCount(k) >= 10 then (if CycleIndex(k) + 1 >= 12 then 0 else CycleIndex(k) + 1)
      else CycleIndex(k)
  {
    if k > 0 {
      var q, m := (k - 1) / 10, (k - 1) % 10;
      assert k - 1 == 10 * q + m;
      if m == 9 {
        DivTen(k, q + 1, 0);
        assert (q + 1) % 12 == if q % 12 + 1 >= 12 then 0 else q % 12 + 1;
      } else {
        DivTen(k, q, m + 1);
      }
    }
  }

  lemma DivTen(n: nat, q: nat, m: nat)
    requires m < 10 && n == 10 * q + m
    ensures n / 10 == q && n % 10 == m
  {
  }

  /** Calls 10q+1 through 10q+10 all return colour number q modulo 12. */
  lemma ColorRun(q: nat, j: nat)
    requires 1 <= j <= 10
    ensures CycleIndex(10 * q + j) == q % 12
    ensures CycleCount(10 * q + j) == j
  {
  }

  /** After all twelve runs of ten the colours start again. */
  lemma ColorWraps(k: nat)
    requires k >= 1
    ensures CycleIndex(k + 120) == CycleIndex(k)
  {
  }

  /** The `particleColors` object. */
  class ParticleColors {
    const colorOptions: seq<string> := Palette
    var colorIndex: int
    var colorIncrementer: int
    /** Declared by the source and never read: `getColor` compares with the literal 10. */
    const colorThreshold: int := 10
    /** How many times `getColor` has run. */
    ghost var calls: nat

    ghost predicate Valid()
      reads this
    {
      colorIndex == CycleIndex(calls) && colorIncrementer == CycleCount(calls)
    }

    constructor ()
      ensures Valid() && calls == 0 && colorIndex == 0 && colorIncrementer == 0
    {
      colorIndex := 0;
      colorIncrementer := 0;
      calls := 0;
    }

    /**
     * Every tenth call moves to the next colour, wrapping after the last;
     * the colour returned is the one at the updated index.
     */
    method GetColor() returns (color: string)
      requires Valid()
      modifies this`colorIndex, this`colorIncrementer, this`calls
      ensures Valid() && calls == old(calls) + 1
      ensures old(colorIncrementer) >= 10 ==>
        colorIncrementer == 1 && colorIndex == (if old(colorIndex) + 1 >= |colorOptions| then 0 else old(colorIndex) + 1)
      ensures old(colorIncrementer) < 10 ==>
        colorIncrementer == old(colorIncrementer) + 1 && colorIndex == old(colorIndex)
      ensures 0 <= colorIndex < |colorOptions| && 1 <= colorIncrementer <= 10
      ensures color == colorOptions[colorIndex]
      ensures color == Palette[((calls - 1) / 10) % 12]
    {
      if colorIncrementer >= 10 {
        colorIncrementer := 0;
        colorIndex := colorIndex + 1;
        if colorIndex >= |colorOptions| {
          colorIndex := 0;
        }
      }
      colorIncrementer := colorIncrementer + 1;
      CycleStep(calls);
      calls := calls + 1;
      color := colorOptions[colorIndex];
    }
  }

  /** A fresh cycler gives ten DodgerBlue pieces, then OliveDrab. */
  method FirstElevenColors() returns (colors: seq<string>)
    ensures |colors| == 11
    ensures forall i :: 0 <= i < 10 ==> colors[i] == "DodgerBlue"
    ensures colors[10] == "OliveDrab"
  {
    var p := new ParticleColors();
    colors := [];
    while |colors| < 11
      invariant p.Valid() && p.calls == |colors| <= 11
      invariant forall i :: 0 <= i < |colors| ==> colors[i] == Palette[CycleIndex(i + 1)]
    {
      var c := p.GetColor();
      colors := colors + [c];
    }
    forall i | 0 <= i < 10 ensures colors[i] == "DodgerBlue" {
      ColorRun(0, i + 1);
    }
    ColorRun(1, 1);
  }

  /** The start-over button: back to section 1, page 1, then redisplay. */
  method StartOver(m: ModuleScope) returns (ok: bool)
    modifies m`sectionNumber, m`pageNumber, m`currentSlide
    ensures m.sectionNumber == 1 && m.pageNumber == 1
    ensures ok == (1 <= |m.json|)
    ensures ok ==> m.currentSlide == SlideAt(m.json[0].slides, 1)
    ensures !ok ==> m.currentSlide == old(m.currentSlide)
  {
    m.sectionNumber := 1;
    m.pageNumber := 1;
    ok := m.DisplayPageContent();
  }

  /** Starting over from the second of two sections keeps that section's title and length. */
  method StartOverKeepsStaleLength() returns (title: string, length: int, shown: Option<Slide>)
    ensures title == "B" && length == 3
    ensures shown == Some(Slide("A1", None))
  {
    var m := new ModuleScope();
    m.json := [Section("A", [Slide("A1", None)]), Section("B", [Slide("B1", None), Slide("B2", None), Slide("B3", None)])];
    m.sectionNumber, m.section, m.length, m.pageNumber := 2, "B", 3, 3;
    var ok := StartOver(m);
    title, length, shown := m.section, m.length, m.currentSlide;
  }

  /** Corrected: starting over also takes the title and length of the first section. */
  method StartOverIntended(m: ModuleScope) returns (ok: bool)
    modifies m`section, m`length, m`sectionNumber, m`pageNumber, m`currentSlide
    ensures m.sectionNumber == 1 && m.pageNumber == 1
    ensures ok == (1 <= |m.json|)
    ensures ok ==> m.section == m.json[0].sectionName && m.length == |m.json[0].slides|
    ensures ok ==> m.currentSlide == SlideAt(m.json[0].slides, 1)
    ensures !ok ==> m.section == old(m.section) && m.length == old(m.length) && m.currentSlide == old(m.currentSlide)
    ensures ok && |m.json[0].slides| > 0 ==> m.OnValidSlide()
  {
    m.sectionNumber := 1;
    m.pageNumber := 1;
    if |m.json| >= 1 {
      m.section := m.json[0].sectionName;
      m.length := |m.json[0].slides|;
    }
    ok := m.DisplayPageContent();
  }
}
