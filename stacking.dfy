/**
 * The cell builder: stacks reference monolayers into one crystal cell.
 *
 * Layer k's bottom chalcogen sits at LayerBase(k), the sum of the heights
 * and separations of the layers below it; its metal sits h/2 higher and
 * its top chalcogen h higher. The in-plane sites come from a two-state
 * registry (A or B) that toggles after every layer under AB stacking and
 * stays at A under AA stacking.
 */
module Stacking {
  import opened Geometry
  import opened Wrappers
  import opened Layer

  // ---------------------------------------------------------------- registry

  datatype Registry = A | B

  function Toggle(r: Registry): Registry
  {
    if r == A then B else A
  }

  /** The registry transition applied after each layer. */
  function Step(abStacking: bool, r: Registry): Registry
  {
    if abStacking then Toggle(r) else r
  }

  /** The registry in force for layer k: k transitions from the initial state A. */
  function RegistryAt(abStacking: bool, k: nat): Registry
  {
    if k == 0 then A else Step(abStacking, RegistryAt(abStacking, k - 1))
  }

  /** AB stacking alternates A, B, A, ... by parity; AA stacking stays at A. */
  lemma {:induction false} RegistryParity(abStacking: bool, k: nat)
    ensures RegistryAt(abStacking, k) == if abStacking && k % 2 == 1 then B else A
  {
    if k > 0 {
      RegistryParity(abStacking, k - 1);
    }
  }

  // ------------------------------------------------------------------ heights

  /** Sum over the layers j < k of (h_j + cSep): the z of layer k's bottom chalcogen. */
  function LayerBase(layers: seq<Monolayer>, cSep: real, k: nat): real
    requires k <= |layers|
  {
    if k == 0 then 0.0 else LayerBase(layers, cSep, k - 1) + HFrom2H(layers[k - 1]) + cSep
  }

  predicate NonNegativeSpacing(layers: seq<Monolayer>, cSep: real)
  {
    cSep >= 0.0 && forall i :: 0 <= i < |layers| ==> HFrom2H(layers[i]) >= 0.0
  }

  /** With non-negative heights and separation, layer bases never decrease. */
  lemma {:induction false} LayerBaseMonotone(layers: seq<Monolayer>, cSep: real, j: nat, k: nat)
    requires j <= k <= |layers|
    requires NonNegativeSpacing(layers, cSep)
    ensures LayerBase(layers, cSep, j) <= LayerBase(layers, cSep, k)
  {
    if j < k {
      LayerBaseMonotone(layers, cSep, j, k - 1);
    }
  }

  // ---------------------------------------------------------- in-plane sites

  /** Fractional site (0, 0). */
  const Origin := Fractional(0.0, 0.0)

  /** Fractional site (1/3, 2/3). */
  const Hollow := Fractional(1.0 / 3.0, 2.0 / 3.0)

  /** Unshifted chalcogen site: (0, 0) in state A, (1/3, 2/3) in state B. */
  function ChalcogenBase(r: Registry): Fractional
  {
    if r == A then Origin else Hollow
  }

  /** Unshifted metal site: (1/3, 2/3) in state A, (0, 0) in state B. */
  function MetalBase(r: Registry): Fractional
  {
    if r == A then Hollow else Origin
  }

  /** A site offset by a layer shift, each component taken modulo 1. */
  function Site(base: Fractional, shift: Fractional): (f: Fractional)
    ensures 0.0 <= f.a < 1.0 && 0.0 <= f.b < 1.0
    ensures IsInteger(base.a + shift.a - f.a) && IsInteger(base.b + shift.b - f.b)
  {
    Fractional(Wrap(base.a + shift.a), Wrap(base.b + shift.b))
  }

  // --------------------------------------------------------------- the cell

  /** The built cell: lattice rows, atomic symbols and Cartesian positions. */
  datatype Cell = Cell(lattice: Lattice, symbols: seq<string>, positions: seq<Vec3>)

  function Min(x: int, y: int): int
  {
    if x <= y then x else y
  }

  /** Layers the loop processes: zip stops at the shorter of its inputs. */
  function LayerCount(layers: seq<Monolayer>, shifts: seq<Fractional>): nat
  {
    Min(|layers|, |shifts|)
  }

  /** The shift list in use: the given one, or (0, 0) for every layer. */
  function ShiftsOrZero(layerShifts: Option<seq<Fractional>>, count: nat): seq<Fractional>
  {
    if layerShifts.None? then seq(count, i => Origin) else layerShifts.value
  }

  /** Layer m's contribution to the symbol list: [X, M, X]. */
  function LayerSymbols(m: Monolayer): seq<string>
  {
    var (metal, chalcogen) := SymbolsFrom2H(m);
    [chalcogen, metal, chalcogen]
  }

  /** Bottom X, M and top X of one layer placed at base z0 with height h. */
  function PlacedLayer(a1: Vec3, a2: Vec3, r: Registry, shift: Fractional, z0: real, h: real): seq<Vec3>
  {
    [ ToCartesian(a1, a2, Site(ChalcogenBase(r), shift), z0),
      ToCartesian(a1, a2, Site(MetalBase(r), shift), z0 + h / 2.0),
      ToCartesian(a1, a2, Site(ChalcogenBase(r), shift), z0 + h) ]
  }

  /** Layer k's positions in the stack: bottom X, M, top X. */
  function LayerPositions(layers: seq<Monolayer>, shifts: seq<Fractional>, cSep: real,
                          abStacking: bool, sqrt3: real, k: nat): seq<Vec3>
    requires k < |layers| && k < |shifts|
  {
    var a := AFrom2H(layers[0]);
    var r := RegistryAt(abStacking, k);
    var z0 := LayerBase(layers, cSep, k);
    var h := HFrom2H(layers[k]);
    PlacedLayer(BasisA1(a, sqrt3), BasisA2(a, sqrt3), r, shifts[k], z0, h)
  }

  /** Symbol of output atom j: entry j % 3 of layer j / 3's [X, M, X]. */
  function SymbolAt(layers: seq<Monolayer>, j: nat): string
    requires j / 3 < |layers|
  {
    LayerSymbols(layers[j / 3])[j % 3]
  }

  /** Position of output atom j: entry j % 3 (bottom X, M, top X) of layer j / 3. */
  function PositionAt(layers: seq<Monolayer>, shifts: seq<Fractional>, cSep: real,
                      abStacking: bool, sqrt3: real, j: nat): Vec3
    requires j / 3 < |layers| && j / 3 < |shifts|
  {
    LayerPositions(layers, shifts, cSep, abStacking, sqrt3, j / 3)[j % 3]
  }

  /**
   * `cell` is the stack of the first LayerCount(layers, shifts) layers:
   * three atoms per layer, symbols and positions as above, in-plane basis
   * from the first layer's lattice constant, and a vertical third vector
   * reaching vacuumDist above the last atom.
   */
  ghost predicate StackedCell(cell: Cell, layers: seq<Monolayer>, shifts: seq<Fractional>,
                              cSep: real, vacuumDist: real, abStacking: bool, sqrt3: real)
  {
    var n := LayerCount(layers, shifts);
    && n > 0
    && |cell.symbols| == 3 * n
    && |cell.positions| == 3 * n
    && (forall j :: 0 <= j < 3 * n ==> cell.symbols[j] == SymbolAt(layers, j))
    && (forall j :: 0 <= j < 3 * n ==> cell.positions[j] == PositionAt(layers, shifts, cSep, abStacking, sqrt3, j))
    && cell.lattice.a1 == BasisA1(AFrom2H(layers[0]), sqrt3)
    && cell.lattice.a2 == BasisA2(AFrom2H(layers[0]), sqrt3)
    && cell.lattice.a3 == Vec3(0.0, 0.0, cell.positions[3 * n - 1].z + vacuumDist)
  }

  /** Symbols of the first k layers, in stacking order. */
  function StackSymbols(layers: seq<Monolayer>, k: nat): seq<string>
    requires k <= |layers|
  {
    if k == 0 then [] else StackSymbols(layers, k - 1) + LayerSymbols(layers[k - 1])
  }

  /** Positions of the first k layers, in stacking order. */
  function StackPositions(layers: seq<Monolayer>, shifts: seq<Fractional>, cSep: real,
                          abStacking: bool, sqrt3: real, k: nat): seq<Vec3>
    requires k <= |layers| && k <= |shifts|
  {
    if k == 0 then []
    else StackPositions(layers, shifts, cSep, abStacking, sqrt3, k - 1)
         + LayerPositions(layers, shifts, cSep, abStacking, sqrt3, k - 1)
  }

  /** The symbol list of k layers holds SymbolAt(j) at every index j. */
  lemma {:induction false} StackSymbolsAt(layers: seq<Monolayer>, k: nat)
    requires k <= |layers|
    ensures |StackSymbols(layers, k)| == 3 * k
    ensures forall j :: 0 <= j < 3 * k ==> StackSymbols(layers, k)[j] == SymbolAt(layers, j)
  {
    if k > 0 {
      StackSymbolsAt(layers, k - 1);
      forall j | 0 <= j < 3 * k
        ensures StackSymbols(layers, k)[j] == SymbolAt(layers, j)
      {
        if j >= 3 * (k - 1) {
          assert j / 3 == k - 1 && j % 3 == j - 3 * (k - 1);
        }
      }
    }
  }

  /** The position list of k layers holds PositionAt(j) at every index j. */
  lemma {:induction false} StackPositionsAt(layers: seq<Monolayer>, shifts: seq<Fractional>, cSep: real,
                                            abStacking: bool, sqrt3: real, k: nat)
    requires k <= |layers| && k <= |shifts|
    ensures |StackPositions(layers, shifts, cSep, abStacking, sqrt3, k)| == 3 * k
    ensures forall j :: 0 <= j < 3 * k ==>
      StackPositions(layers, shifts, cSep, abStacking, sqrt3, k)[j] == PositionAt(layers, shifts, cSep, abStacking, sqrt3, j)
  {
    if k > 0 {
      StackPositionsAt(layers, shifts, cSep, abStacking, sqrt3, k - 1);
      var prev := StackPositions(layers, shifts, cSep, abStacking, sqrt3, k - 1);
      var last := LayerPositions(layers, shifts, cSep, abStacking, sqrt3, k - 1);
      var n := 3 * (k - 1);
      forall j | 0 <= j < 3 * k
        ensures (prev + last)[j] == PositionAt(layers, shifts, cSep, abStacking, sqrt3, j)
      {
        if j >= n {
          assert j / 3 == k - 1 && j % 3 == j - n;
          assert (prev + last)[j] == last[j - n];
        }
      }
    }
  }

  /**
   * One layer's three positions (bottom X, M, top X): heights from the
   * running base and the layer height, in-plane sites chosen by the
   * registry state, offset by the layer's shift and wrapped modulo 1.
   */
  method PlaceLayer(a1: Vec3, a2: Vec3, basePos: Registry, shift: Fractional, baseZ: real, h: real)
    returns (atoms: seq<Vec3>)
    ensures atoms == PlacedLayer(a1, a2, basePos, shift, baseZ, h)
  {
    var x1Z, mZ, x2Z := baseZ, baseZ + h / 2.0, baseZ + h;

    var dA, dB := shift.a, shift.b;
    var x1Lat, mLat;
    if basePos == A {
      x1Lat := Fractional(Wrap(0.0 + dA), Wrap(0.0 + dB));
      mLat := Fractional(Wrap(1.0 / 3.0 + dA), Wrap(2.0 / 3.0 + dB));
    } else {
      x1Lat := Fractional(Wrap(1.0 / 3.0 + dA), Wrap(2.0 / 3.0 + dB));
      mLat := Fractional(Wrap(0.0 + dA), Wrap(0.0 + dB));
    }
    var x2Lat := x1Lat;

    atoms := [ToCartesian(a1, a2, x1Lat, x1Z), ToCartesian(a1, a2, mLat, mZ), ToCartesian(a1, a2, x2Lat, x2Z)];
  }

  /**
   * Stacks already-resolved layers bottom-up: for each of the first
   * LayerCount(layers, shifts) layers it appends [X, M, X] and their
   * positions, raises the running base by h + cSep and advances the
   * registry; the third lattice vector ends vacuumDist above the last atom.
   */
  method StackLayers(layers: seq<Monolayer>, shifts: seq<Fractional>, cSep: real, vacuumDist: real,
                     abStacking: bool, sqrt3: real)
    returns (cell: Cell)
    requires |layers| > 0 && |shifts| > 0
    requires sqrt3 > 0.0 && sqrt3 * sqrt3 == 3.0
    ensures StackedCell(cell, layers, shifts, cSep, vacuumDist, abStacking, sqrt3)
  {
    var a := AFrom2H(layers[0]);
    var hs := seq(|layers|, i requires 0 <= i < |layers| => HFrom2H(layers[i]));
    var a1, a2 := BasisA1(a, sqrt3), BasisA2(a, sqrt3);

    var baseZ, basePos := 0.0, A;
    var atSyms: seq<string>, cartPos: seq<Vec3> := [], [];
    var k := 0;
    while k < |layers| && k < |shifts|
      invariant 0 <= k <= LayerCount(layers, shifts)
      invariant baseZ == LayerBase(layers, cSep, k)
      invariant basePos == RegistryAt(abStacking, k)
      invariant atSyms == StackSymbols(layers, k)
      invariant cartPos == StackPositions(layers, shifts, cSep, abStacking, sqrt3, k)
    {
      var (mSym, xSym) := SymbolsFrom2H(layers[k]);
      atSyms := atSyms + [xSym, mSym, xSym];

      var h := hs[k];
      var atoms := PlaceLayer(a1, a2, basePos, shifts[k], baseZ, h);
      cartPos := cartPos + atoms;

      baseZ := baseZ + h + cSep;
      if abStacking {
        basePos := if basePos == A then B else A;
      }
      k := k + 1;
    }
    StackSymbolsAt(layers, k);
    StackPositionsAt(layers, shifts, cSep, abStacking, sqrt3, k);

    var a3 := Vec3(0.0, 0.0, cartPos[|cartPos| - 1].z + vacuumDist);
    cell := Cell(Lattice(a1, a2, a3), atSyms, cartPos);
  }

  /**
   * The builder's entry point: resolves every formula in the reference
   * phase (the first failed lookup is the result), defaults the shifts to
   * (0, 0) per layer, and stacks the layers. As in the source, AB stacking
   * and "no shifts given" are the defaults.
   */
  method MakeCell(db: Database, formulas: seq<string>, cSep: real, vacuumDist: real,
                  sqrt3: real, abStacking: bool := true,
                  layerShifts: Option<seq<Fractional>> := None)
    returns (r: Result<Cell, LookupError>)
    requires |formulas| > 0
    requires layerShifts.Some? ==> |layerShifts.value| > 0
    requires sqrt3 > 0.0 && sqrt3 * sqrt3 == 3.0
    ensures r.Err? <==> LookupLayers(db, formulas).Err?
    ensures r.Err? ==> r.error == LookupLayers(db, formulas).error
    ensures r.Ok? ==> StackedCell(r.value, LookupLayers(db, formulas).value,
                                  ShiftsOrZero(layerShifts, |formulas|),
                                  cSep, vacuumDist, abStacking, sqrt3)
  {
    var found := LookupLayers(db, formulas);
    if found.Err? {
      return Err(found.error);
    }
    var layers := found.value;
    var shifts := ShiftsOrZero(layerShifts, |layers|);
    var cell := StackLayers(layers, shifts, cSep, vacuumDist, abStacking, sqrt3);
    return Ok(cell);
  }
}
