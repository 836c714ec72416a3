/**
 * Properties of a built cell, stated on the StackedCell specification
 * that the builder establishes.
 */
module CellProperties {
  import opened Geometry
  import opened Layer
  import opened Stacking

  /**
   * Layer k of the stack reproduces its monolayer: symbols [X, M, X] read
   * from atoms 1 and 0 of the record, a bottom chalcogen at the layer
   * base, the metal halfway up and the top chalcogen one record height
   * (z of atom 2 minus z of atom 1) above the base, both chalcogens at the
   * same in-plane point.
   */
  lemma LayerLayout(cell: Cell, layers: seq<Monolayer>, shifts: seq<Fractional>, cSep: real,
                    vacuumDist: real, abStacking: bool, sqrt3: real, k: nat)
    requires StackedCell(cell, layers, shifts, cSep, vacuumDist, abStacking, sqrt3)
    requires k < LayerCount(layers, shifts)
    ensures cell.symbols[3 * k] == layers[k].symbols[1]
    ensures cell.symbols[3 * k + 1] == layers[k].symbols[0]
    ensures cell.symbols[3 * k + 2] == layers[k].symbols[1]
    ensures var h := layers[k].positions[2].z - layers[k].positions[1].z;
            && cell.positions[3 * k].z == LayerBase(layers, cSep, k)
            && cell.positions[3 * k + 1].z == LayerBase(layers, cSep, k) + h / 2.0
            && cell.positions[3 * k + 2].z == LayerBase(layers, cSep, k) + h
    ensures cell.positions[3 * k].x == cell.positions[3 * k + 2].x
    ensures cell.positions[3 * k].y == cell.positions[3 * k + 2].y
  {
    var n := LayerCount(layers, shifts);
    assert (3 * k) / 3 == k && (3 * k) % 3 == 0;
    assert (3 * k + 1) / 3 == k && (3 * k + 1) % 3 == 1;
    assert (3 * k + 2) / 3 == k && (3 * k + 2) % 3 == 2;
    assert 3 * k + 2 < 3 * n;
    assert cell.symbols[3 * k] == SymbolAt(layers, 3 * k);
    assert cell.symbols[3 * k + 1] == SymbolAt(layers, 3 * k + 1);
    assert cell.symbols[3 * k + 2] == SymbolAt(layers, 3 * k + 2);
    assert cell.positions[3 * k] == PositionAt(layers, shifts, cSep, abStacking, sqrt3, 3 * k);
    assert cell.positions[3 * k + 1] == PositionAt(layers, shifts, cSep, abStacking, sqrt3, 3 * k + 1);
    assert cell.positions[3 * k + 2] == PositionAt(layers, shifts, cSep, abStacking, sqrt3, 3 * k + 2);
  }

  /**
   * The in-plane sites of layer k follow the registry's parity: under AB
   * stacking even layers put the chalcogens at (0, 0) and the metal at
   * (1/3, 2/3), odd layers the other way round; under AA stacking every
   * layer is placed like layer 0. Each site is offset by the layer's shift
   * and wrapped into the unit cell.
   */
  lemma RegistrySites(cell: Cell, layers: seq<Monolayer>, shifts: seq<Fractional>, cSep: real,
                      vacuumDist: real, abStacking: bool, sqrt3: real, k: nat)
    requires StackedCell(cell, layers, shifts, cSep, vacuumDist, abStacking, sqrt3)
    requires k < LayerCount(layers, shifts)
    ensures var swapped := abStacking && k % 2 == 1;
            var x := Site(if swapped then Hollow else Origin, shifts[k]);
            var m := Site(if swapped then Origin else Hollow, shifts[k]);
            var a1, a2 := cell.lattice.a1, cell.lattice.a2;
            && cell.positions[3 * k] == ToCartesian(a1, a2, x, cell.positions[3 * k].z)
            && cell.positions[3 * k + 1] == ToCartesian(a1, a2, m, cell.positions[3 * k + 1].z)
            && cell.positions[3 * k + 2] == ToCartesian(a1, a2, x, cell.positions[3 * k + 2].z)
  {
    var n := LayerCount(layers, shifts);
    RegistryParity(abStacking, k);
    assert (3 * k) / 3 == k && (3 * k) % 3 == 0;
    assert (3 * k + 1) / 3 == k && (3 * k + 1) % 3 == 1;
    assert (3 * k + 2) / 3 == k && (3 * k + 2) % 3 == 2;
    assert 3 * k + 2 < 3 * n;
    assert cell.positions[3 * k] == PositionAt(layers, shifts, cSep, abStacking, sqrt3, 3 * k);
    assert cell.positions[3 * k + 1] == PositionAt(layers, shifts, cSep, abStacking, sqrt3, 3 * k + 1);
    assert cell.positions[3 * k + 2] == PositionAt(layers, shifts, cSep, abStacking, sqrt3, 3 * k + 2);
  }

  /** The top chalcogen of layer k and the bottom chalcogen of layer k + 1 are cSep apart in z. */
  lemma InterlayerGap(cell: Cell, layers: seq<Monolayer>, shifts: seq<Fractional>, cSep: real,
                      vacuumDist: real, abStacking: bool, sqrt3: real, k: nat)
    requires StackedCell(cell, layers, shifts, cSep, vacuumDist, abStacking, sqrt3)
    requires k + 1 < LayerCount(layers, shifts)
    ensures cell.positions[3 * (k + 1)].z - cell.positions[3 * k + 2].z == cSep
  {
    LayerLayout(cell, layers, shifts, cSep, vacuumDist, abStacking, sqrt3, k);
    LayerLayout(cell, layers, shifts, cSep, vacuumDist, abStacking, sqrt3, k + 1);
  }

  /**
   * With non-negative layer heights and separation the last atom is the
   * highest, so the third lattice vector clears every atom by vacuumDist.
   */
  lemma TopAtomIsHighest(cell: Cell, layers: seq<Monolayer>, shifts: seq<Fractional>, cSep: real,
                         vacuumDist: real, abStacking: bool, sqrt3: real)
    requires StackedCell(cell, layers, shifts, cSep, vacuumDist, abStacking, sqrt3)
    requires NonNegativeSpacing(layers, cSep)
    ensures forall j :: 0 <= j < |cell.positions| ==> cell.positions[j].z <= cell.positions[|cell.positions| - 1].z
    ensures forall j :: 0 <= j < |cell.positions| ==> cell.positions[j].z + vacuumDist <= cell.lattice.a3.z
  {
    AtomsInHeightOrder(cell, layers, shifts, cSep, vacuumDist, abStacking, sqrt3);
  }

  /**
   * Every atom of layer k lies between the layer base and the base of
   * layer k + 1, when layer k's height is non-negative.
   */
  lemma AtomWithinLayer(cell: Cell, layers: seq<Monolayer>, shifts: seq<Fractional>, cSep: real,
                        vacuumDist: real, abStacking: bool, sqrt3: real, j: nat)
    requires StackedCell(cell, layers, shifts, cSep, vacuumDist, abStacking, sqrt3)
    requires NonNegativeSpacing(layers, cSep)
    requires j < |cell.positions|
    ensures j / 3 < LayerCount(layers, shifts)
    ensures LayerBase(layers, cSep, j / 3) <= cell.positions[j].z
    ensures cell.positions[j].z + cSep <= LayerBase(layers, cSep, j / 3 + 1)
  {
    var k := j / 3;
    LayerLayout(cell, layers, shifts, cSep, vacuumDist, abStacking, sqrt3, k);
    assert HFrom2H(layers[k]) >= 0.0;
    assert j == 3 * k || j == 3 * k + 1 || j == 3 * k + 2;
  }

  /**
   * With non-negative layer heights and separation the atoms come out in
   * order of non-decreasing z, the order the builder assumes when it sets
   * the third lattice vector from the last atom.
   */
  lemma AtomsInHeightOrder(cell: Cell, layers: seq<Monolayer>, shifts: seq<Fractional>, cSep: real,
                           vacuumDist: real, abStacking: bool, sqrt3: real)
    requires StackedCell(cell, layers, shifts, cSep, vacuumDist, abStacking, sqrt3)
    requires NonNegativeSpacing(layers, cSep)
    ensures forall i, j :: 0 <= i <= j < |cell.positions| ==> cell.positions[i].z <= cell.positions[j].z
  {
    forall i, j | 0 <= i <= j < |cell.positions|
      ensures cell.positions[i].z <= cell.positions[j].z
    {
      if i / 3 == j / 3 {
        var k := i / 3;
        LayerLayout(cell, layers, shifts, cSep, vacuumDist, abStacking, sqrt3, k);
        assert HFrom2H(layers[k]) >= 0.0;
        assert i == 3 * k || i == 3 * k + 1 || i == 3 * k + 2;
        assert j == 3 * k || j == 3 * k + 1 || j == 3 * k + 2;
      } else {
        AtomWithinLayer(cell, layers, shifts, cSep, vacuumDist, abStacking, sqrt3, i);
        AtomWithinLayer(cell, layers, shifts, cSep, vacuumDist, abStacking, sqrt3, j);
        LayerBaseMonotone(layers, cSep, i / 3 + 1, j / 3);
      }
    }
  }

  /**
   * Shifts matter only modulo whole lattice vectors: replacing every
   * layer's shift by one that differs by integers in both components
   * describes exactly the same cell.
   */
  lemma IntegerShiftsEquivalent(cell: Cell, layers: seq<Monolayer>, shifts: seq<Fractional>,
                                shifts': seq<Fractional>, cSep: real, vacuumDist: real,
                                abStacking: bool, sqrt3: real)
    requires |shifts'| == |shifts|
    requires forall k :: 0 <= k < |shifts| ==>
               IsInteger(shifts'[k].a - shifts[k].a) && IsInteger(shifts'[k].b - shifts[k].b)
    requires StackedCell(cell, layers, shifts, cSep, vacuumDist, abStacking, sqrt3)
    ensures StackedCell(cell, layers, shifts', cSep, vacuumDist, abStacking, sqrt3)
  {
    var n := LayerCount(layers, shifts);
    forall k | 0 <= k < n
      ensures LayerPositions(layers, shifts', cSep, abStacking, sqrt3, k)
              == LayerPositions(layers, shifts, cSep, abStacking, sqrt3, k)
    {
      var r := RegistryAt(abStacking, k);
      SiteIntegerShift(ChalcogenBase(r), shifts[k], shifts'[k]);
      SiteIntegerShift(MetalBase(r), shifts[k], shifts'[k]);
    }
    forall j | 0 <= j < 3 * n
      ensures cell.positions[j] == PositionAt(layers, shifts', cSep, abStacking, sqrt3, j)
    {
      assert cell.positions[j] == PositionAt(layers, shifts, cSep, abStacking, sqrt3, j);
    }
  }

  /** A site does not move when its shift changes by whole periods. */
  lemma SiteIntegerShift(base: Fractional, shift: Fractional, shift': Fractional)
    requires IsInteger(shift'.a - shift.a) && IsInteger(shift'.b - shift.b)
    ensures Site(base, shift') == Site(base, shift)
  {
    var da, db := (shift'.a - shift.a).Floor, (shift'.b - shift.b).Floor;
    assert base.a + shift'.a == (base.a + shift.a) + da as real;
    assert base.b + shift'.b == (base.b + shift.b) + db as real;
    WrapPeriodic(base.a + shift.a, da);
    WrapPeriodic(base.b + shift.b, db);
  }

  /**
   * Two cells built from the same layers with different shift lists of
   * the same length differ only in the in-plane components: the species,
   * every height and the lattice vectors agree.
   */
  lemma ShiftsMoveOnlyInPlane(cell: Cell, cell': Cell, layers: seq<Monolayer>,
                              shifts: seq<Fractional>, shifts': seq<Fractional>, cSep: real,
                              vacuumDist: real, abStacking: bool, sqrt3: real)
    requires |shifts'| == |shifts|
    requires StackedCell(cell, layers, shifts, cSep, vacuumDist, abStacking, sqrt3)
    requires StackedCell(cell', layers, shifts', cSep, vacuumDist, abStacking, sqrt3)
    ensures cell'.symbols == cell.symbols
    ensures |cell'.positions| == |cell.positions|
    ensures forall j :: 0 <= j < |cell.positions| ==> cell'.positions[j].z == cell.positions[j].z
    ensures cell'.lattice == cell.lattice
  {
  }

  /** The specification leaves no freedom: the build is a function of its inputs. */
  lemma StackedCellUnique(cell: Cell, cell': Cell, layers: seq<Monolayer>, shifts: seq<Fractional>,
                          cSep: real, vacuumDist: real, abStacking: bool, sqrt3: real)
    requires StackedCell(cell, layers, shifts, cSep, vacuumDist, abStacking, sqrt3)
    requires StackedCell(cell', layers, shifts, cSep, vacuumDist, abStacking, sqrt3)
    ensures cell' == cell
  {
    assert cell'.symbols == cell.symbols;
    assert cell'.positions == cell.positions;
  }

  /**
   * The cell's in-plane vectors form a hexagonal basis whose length is the
   * first layer's lattice constant (the first component of its first
   * lattice row), and the third vector is perpendicular to both.
   */
  lemma HexagonalCell(cell: Cell, layers: seq<Monolayer>, shifts: seq<Fractional>, cSep: real,
                      vacuumDist: real, abStacking: bool, sqrt3: real)
    requires StackedCell(cell, layers, shifts, cSep, vacuumDist, abStacking, sqrt3)
    requires sqrt3 * sqrt3 == 3.0
    ensures var a := layers[0].cell.a1.x;
            && Dot(cell.lattice.a1, cell.lattice.a1) == a * a
            && Dot(cell.lattice.a2, cell.lattice.a2) == a * a
            && Dot(cell.lattice.a1, cell.lattice.a2) == -(a * a) / 2.0
            && Dot(cell.lattice.a1, cell.lattice.a3) == 0.0
            && Dot(cell.lattice.a2, cell.lattice.a3) == 0.0
  {
    HexagonalBasis(layers[0].cell.a1.x, sqrt3);
  }

  /** A one-layer stack is the monolayer's [X, M, X] with a cell height of h + vacuumDist. */
  lemma SingleLayerCell(cell: Cell, layers: seq<Monolayer>, shifts: seq<Fractional>, cSep: real,
                        vacuumDist: real, abStacking: bool, sqrt3: real)
    requires StackedCell(cell, layers, shifts, cSep, vacuumDist, abStacking, sqrt3)
    requires LayerCount(layers, shifts) == 1
    ensures cell.symbols == [layers[0].symbols[1], layers[0].symbols[0], layers[0].symbols[1]]
    ensures |cell.positions| == 3
    ensures cell.lattice.a3.z == layers[0].positions[2].z - layers[0].positions[1].z + vacuumDist
  {
    LayerLayout(cell, layers, shifts, cSep, vacuumDist, abStacking, sqrt3, 0);
  }

  /** Without a shift the sites are exactly (0, 0) and (1/3, 2/3). */
  lemma UnshiftedSites()
    ensures Site(Origin, Origin) == Origin
    ensures Site(Hollow, Origin) == Hollow
  {
    WrapUnique(Origin.a + Origin.a, 0.0);
    WrapUnique(Hollow.a + Origin.a, Hollow.a);
    WrapUnique(Hollow.b + Origin.b, Hollow.b);
    var f := Site(Hollow, Origin);
    assert f.a == Wrap(Hollow.a + Origin.a) && f.b == Wrap(Hollow.b + Origin.b);
  }
}
