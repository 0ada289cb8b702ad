/**
 * The two constant tables of the planetary-hour (hora) calculation: the
 * seven-planet rotation and the planet that opens each weekday, together with
 * the lookup that finds a planet's position in the rotation.
 */
module HoraTable {
  import opened Wrappers

  /** The seven classical planets that rule the hora segments. */
  datatype Planet = Saturn | Jupiter | Mars | Sun | Venus | Mercury | Moon

  /** Weekday number as the calendar library counts it: Monday is 0, Sunday is 6. */
  type Weekday = w: int | 0 <= w < 7

  /** The label the report prints for each planet: its glyph, a space, then its English name. */
  function Name(p: Planet): (r: string)
    ensures |r| >= 5 && r[1] == ' '
  {
    match p
    case Saturn => "\U{1FA90} Saturn"
    case Jupiter => "♃ Jupiter"
    case Mars => "♂ Mars"
    case Sun => "☀ Sun"
    case Venus => "♀ Venus"
    case Mercury => "☿ Mercury"
    case Moon => "☽ Moon"
  }

  /** The hora rotation: consecutive segments are ruled by consecutive entries, wrapping after Moon. */
  const HoraCycle: seq<Planet> := [Saturn, Jupiter, Mars, Sun, Venus, Mercury, Moon]

  /** The planet ruling the first daytime segment of each weekday. */
  const DayStartPlanet: map<Weekday, Planet> :=
    map[0 := Moon, 1 := Mars, 2 := Mercury, 3 := Jupiter, 4 := Venus, 5 := Saturn, 6 := Sun]

  /** Planet names are pairwise different, so looking a planet up by its label is looking it up by identity. */
  lemma NamesDistinct(p: Planet, q: Planet)
    ensures Name(p) == Name(q) <==> p == q
  {
    if p != q {
      assert Name(p)[0] != Name(q)[0];
    }
  }

  /** The rotation has seven entries, no planet twice, and every planet once. */
  lemma CycleHoldsEachPlanetOnce()
    ensures |HoraCycle| == 7
    ensures forall i, j :: 0 <= i < j < |HoraCycle| ==> HoraCycle[i] != HoraCycle[j]
    ensures forall p: Planet :: p in HoraCycle
  {
    forall p: Planet ensures p in HoraCycle {
      match p
      case Saturn => assert HoraCycle[0] == p;
      case Jupiter => assert HoraCycle[1] == p;
      case Mars => assert HoraCycle[2] == p;
      case Sun => assert HoraCycle[3] == p;
      case Venus => assert HoraCycle[4] == p;
      case Mercury => assert HoraCycle[5] == p;
      case Moon => assert HoraCycle[6] == p;
    }
  }

  /** Every weekday has a starting planet, and that planet occurs in the rotation. */
  lemma StartTableComplete()
    ensures forall w: Weekday :: w in DayStartPlanet && DayStartPlanet[w] in HoraCycle
  {
    CycleHoldsEachPlanetOnce();
  }

  /** The weekday's starting planet, looked up in the table; it is always one of the rotation's entries. */
  function StartPlanet(w: Weekday): (p: Planet)
    ensures p in HoraCycle
  {
    StartTableComplete();
    DayStartPlanet[w]
  }

  /**
   * Scans `s` from position `from` for `p`: the first position at or after
   * `from` that holds `p`, or None when there is none.
   */
  function IndexFrom(s: seq<Planet>, p: Planet, from: nat): (r: Option<nat>)
    requires from <= |s|
    ensures r.Some? ==> from <= r.value < |s| && s[r.value] == p
    ensures r.Some? ==> forall j :: from <= j < r.value ==> s[j] != p
    ensures r.None? ==> forall j :: from <= j < |s| ==> s[j] != p
    decreases |s| - from
  {
    if from == |s| then None
    else if s[from] == p then Some(from)
    else IndexFrom(s, p, from + 1)
  }

  /**
   * Position of the first occurrence of `p` in `s`, or None when `p` does not
   * occur (where the list lookup of the source raises an error).
   */
  function IndexOf(s: seq<Planet>, p: Planet): (r: Option<nat>)
    ensures r.Some? ==> r.value < |s| && s[r.value] == p && forall j :: 0 <= j < r.value ==> s[j] != p
    ensures r.None? <==> p !in s
  {
    IndexFrom(s, p, 0)
  }

  /** The planet at cycle position `k`, wrapping modulo 7 in both directions. */
  function PlanetAt(k: int): (r: Planet)
    ensures r in HoraCycle
    // Within the first turn, the position is the rotation index itself.
    ensures 0 <= k < 7 ==> r == HoraCycle[k]
  {
    HoraCycle[k % 7]
  }

  /** In a sequence without repeats, the lookup finds the one position that holds `p`. */
  lemma IndexOfUnique(s: seq<Planet>, p: Planet, i: nat)
    requires forall a, b :: 0 <= a < b < |s| ==> s[a] != s[b]
    requires i < |s| && s[i] == p
    ensures IndexOf(s, p) == Some(i)
  {
    assert p in s;
  }

  /** Looking up the planet at position `k` gives back `k` reduced modulo 7. */
  lemma IndexOfPlanetAt(k: int)
    ensures IndexOf(HoraCycle, PlanetAt(k)) == Some(k % 7)
  {
    CycleHoldsEachPlanetOnce();
    IndexOfUnique(HoraCycle, PlanetAt(k), k % 7);
  }

  /** Every planet is found, and the planet at the position found is the one looked up. */
  lemma PlanetAtIndexOf(p: Planet)
    ensures IndexOf(HoraCycle, p).Some? && PlanetAt(IndexOf(HoraCycle, p).value) == p
  {
    CycleHoldsEachPlanetOnce();
    var i := IndexOf(HoraCycle, p).value;
    assert i % 7 == i;
  }

  /** Positions that agree modulo 7 carry the same planet; `a + k` is `k` steps on from `a`. */
  lemma PlanetAtCongruent(a: int, k: int)
    ensures PlanetAt(a % 7 + k) == PlanetAt(a + k)
  {
    var q := a / 7;
    assert a + k == a % 7 + k + 7 * q;
    assert (a % 7 + k + 7 * q) % 7 == (a % 7 + k) % 7;
  }

  /** The rotation repeats every seven positions. */
  lemma PlanetAtPeriodic(k: int)
    ensures PlanetAt(k + 7) == PlanetAt(k)
  {
  }

  /** Position in the rotation of the planet that opens weekday `w`. */
  function StartIndex(w: Weekday): (i: nat)
    ensures i < |HoraCycle| && HoraCycle[i] == StartPlanet(w)
    ensures forall j :: 0 <= j < |HoraCycle| && HoraCycle[j] == StartPlanet(w) ==> j == i
  {
    CycleHoldsEachPlanetOnce();
    IndexOf(HoraCycle, StartPlanet(w)).value
  }

  /** The start positions of Monday through Sunday. */
  lemma StartIndexTable()
    ensures StartIndex(0) == 6 && StartIndex(1) == 2 && StartIndex(2) == 5 && StartIndex(3) == 1
    ensures StartIndex(4) == 4 && StartIndex(5) == 0 && StartIndex(6) == 3
  {
    assert HoraCycle[6] == StartPlanet(0) && HoraCycle[2] == StartPlanet(1);
    assert HoraCycle[5] == StartPlanet(2) && HoraCycle[1] == StartPlanet(3);
    assert HoraCycle[4] == StartPlanet(4) && HoraCycle[0] == StartPlanet(5);
    assert HoraCycle[3] == StartPlanet(6);
  }
}
