# TMD stack geometry builder — a Dafny model

This project models the cell builder of `displ/build/cell.py`. The builder
stacks single-layer transition-metal dichalcogenide (MX2) structures into
one crystal cell: lattice vectors, a list of chemical symbols and their
Cartesian positions.

- **Monolayer lookup** (`get_layer_system`). The database is a parameter:
  a function from a query (formula, the PBE functional, phase) to the list
  of matching records. A lookup fails when the list has zero entries or
  more than one. Otherwise it returns the single record. `LookupLayers`
  resolves every formula of a stack in order, and the first failure is
  the result.
- **Layer descriptors** (`a_from_2H`, `h_from_2H`, `symbols_from_2H`). A
  record stores its atoms in the order metal, chalcogen, chalcogen
  (M, X, X). The lattice constant `a` is the first component of the first
  lattice row. The height `h` is z(atom 2) − z(atom 1), the distance
  between the two chalcogens. The species pair (metal, chalcogen) is the
  symbols of atoms 0 and 1.
- **Cell assembly** (`make_cell`). This is a loop over the layers with a
  running base height and a two-state registry (A or B). The registry
  toggles after each layer under AB stacking and stays at A under AA
  stacking. Each layer appends [X, M, X]:
  - the bottom X at the base height;
  - M at base + h/2;
  - the top X at base + h.

  The in-plane fractional sites are (0, 0) and (1/3, 2/3). The registry
  state decides which species goes where. Each site is offset by the
  layer's shift and reduced modulo 1. The hexagonal basis
  a1 = a(1/2, −√3/2, 0), a2 = a(1/2, √3/2, 0) uses the first layer's `a`.
  The vacuum vector is a3 = (0, 0, z of the last atom + vacuum).

The loop runs over `zip`, so it stops at the shorter of the layer list and
the shift list. It does not check that the two lengths match. It also
never checks that the atoms come in increasing z (the TODO at
displ/build/cell.py:96-97). The model does the same: no length check, no
z-order check. Each record is read in M, X, X order, and `h` is measured
from one chalcogen to the other.

Numbers are exact `real`s. Python's `x % 1` becomes `Wrap(x) = x − ⌊x⌋`.
√3 is the parameter `sqrt3`, with `sqrt3 > 0` and `sqrt3 * sqrt3 == 3`.

Files:
- `wrappers.dfy`: `Option` and `Result`.
- `geometry.dfy`: vectors, `Wrap`, the hexagonal basis.
- `layer.dfy`: lookup and descriptors.
- `stacking.dfy`: registry, heights, sites, the `StackedCell` specification, the builder methods.
- `properties.dfy`: lemmas about built cells.

`StackedCell(cell, layers, shifts, …)` is the specification the builder
meets. The cell has 3·n symbols and 3·n positions, where
n = min(|layers|, |shifts|). Atom j is entry j mod 3 of layer j div 3's
[X, M, X]. The lattice vectors are as above.

## Model

| member | source | states |
|---|---|---|
| `Geometry.Wrap` | displ/build/cell.py:70-76 | `x % 1` lies in [0, 1) and differs from x by an integer |
| `Geometry.WrapUnique` | displ/build/cell.py:70-76 | those two facts determine `x % 1` uniquely |
| `Geometry.WrapPeriodic` | displ/build/cell.py:70-76 | `(x + n) % 1 == x % 1` for every integer n |
| `Geometry.HexagonalBasis` | displ/build/cell.py:44-47 | a1 and a2 both have length \|a\|, meet at 120° (a1·a2 = −a²/2) and lie in the plane z = 0 |
| `Layer.GetLayerSystem` | displ/build/cell.py:5-15 | succeeds iff the query matches exactly one record, and then returns that record; more than one match is `MultipleMatches`, none is `NoMatches` |
| `Layer.LookupLayers` | displ/build/cell.py:37 | on success, one record per formula, each the unique match of its formula in phase H; on failure, the error of the first formula whose lookup fails, with all earlier lookups succeeding |
| `Layer.AFrom2H` | displ/build/cell.py:18-22 | the lattice constant is the first component of the record's first lattice row |
| `Layer.HFrom2H` | displ/build/cell.py:24-29 | atom 2 of the record sits the layer height above atom 1 in z |
| `Layer.SymbolsFrom2H` | displ/build/cell.py:31-34 | the (metal, chalcogen) pair is the symbols of atoms 0 and 1 of the record |
| `Stacking.RegistryParity` | displ/build/cell.py:87-94 | the registry of layer k under AB stacking is A for even k and B for odd k; under AA stacking it is always A |
| `Stacking.LayerBaseMonotone` | displ/build/cell.py:85 | with non-negative heights and separation, the running base height never decreases from layer to layer |
| `Stacking.Site` | displ/build/cell.py:69-76 | each shifted site component lies in [0, 1) and differs from base + shift by an integer |
| `Stacking.StackSymbolsAt` | displ/build/cell.py:56-58 | the symbol list of k layers has 3k entries, and entry j is entry j mod 3 of layer j div 3's [X, M, X] |
| `Stacking.StackPositionsAt` | displ/build/cell.py:78-83 | the position list of k layers has 3k entries, and entry j is atom j mod 3 of layer j div 3 |
| `Stacking.PlaceLayer` | displ/build/cell.py:60-83 | the branch on the registry state puts X at (0, 0) + shift and M at (1/3, 2/3) + shift in state A (swapped in B), wrapped modulo 1, at heights base, base + h/2, base + h, with both X sharing one in-plane site |
| `Stacking.StackLayers` | displ/build/cell.py:39-101 | the loop with its running base and registry produces a cell meeting `StackedCell`: min(\|layers\|, \|shifts\|) layers, [X, M, X] per layer, positions per layer and registry, hexagonal a1 and a2 from the first layer, a3 vacuumDist above the last atom |
| `Stacking.MakeCell` | displ/build/cell.py:36-101 | fails exactly when some lookup fails, with that lookup's error; otherwise the cell meets `StackedCell` for the looked-up layers and the given shifts, or (0, 0) per layer when none are given; AB stacking and no shifts are the defaults |
| `CellProperties.LayerLayout` | displ/build/cell.py:56-63 | layer k of the cell carries its record's symbols as [atom 1, atom 0, atom 1]; its bottom X sits at the layer base, M at base + h/2 and the top X at base + h, with h = z(atom 2) − z(atom 1); both X share one in-plane position |
| `CellProperties.RegistrySites` | displ/build/cell.py:69-76 | under AB stacking, even layers put X at (0, 0) and M at (1/3, 2/3), odd layers the reverse; under AA stacking every layer has X at (0, 0) and M at (1/3, 2/3); each site is shifted and wrapped |
| `CellProperties.InterlayerGap` | displ/build/cell.py:61-85 | the top X of layer k and the bottom X of layer k + 1 are exactly c_sep apart in z |
| `CellProperties.TopAtomIsHighest` | displ/build/cell.py:96-98 | if every h ≥ 0 and c_sep ≥ 0, the last atom has the largest z, so a3 reaches vacuumDist above every atom |
| `CellProperties.AtomWithinLayer` | displ/build/cell.py:61-85 | with non-negative heights and separation, every atom of layer k lies at or above that layer's base and at least c_sep below the next layer's base |
| `CellProperties.AtomsInHeightOrder` | displ/build/cell.py:96-98 | if every h ≥ 0 and c_sep ≥ 0, the atoms come in order of non-decreasing z, which is the order the source assumes when it sets a3 from the last atom |
| `CellProperties.IntegerShiftsEquivalent` | displ/build/cell.py:65-76 | shift lists that differ by integers in every component specify the same cell |
| `CellProperties.SiteIntegerShift` | displ/build/cell.py:70-76 | a site does not move when its shift changes by whole periods |
| `CellProperties.ShiftsMoveOnlyInPlane` | displ/build/cell.py:60-83 | two cells built from the same layers with shift lists of the same length have the same symbols, lattice and heights; they differ only in x and y |
| `CellProperties.StackedCellUnique` | displ/build/cell.py:36-101 | the specification determines the cell: equal inputs give equal cells |
| `CellProperties.HexagonalCell` | displ/build/cell.py:38-46 | a1 and a2 both have length \|cell[0][0]\| of the first record and meet at 120°; a3 is perpendicular to both |
| `CellProperties.SingleLayerCell` | displ/build/cell.py:55-98 | a one-layer cell holds exactly [X, M, X] and has height h + vacuumDist |
| `CellProperties.UnshiftedSites` | displ/build/cell.py:49-51 | with the default zero shift the sites are exactly (0, 0) and (1/3, 2/3) |

## Left out

- The database query string, `db.select` and `toatoms()`. The database is a total function from a `Query` to the list of matching records. Records are `Atoms` values. Converting a record is the identity.
- Error message text. The two `ValueError`s are the two `LookupError` constructors, which carry the formula and phase.
- Records with fewer than three atoms or symbols are excluded by the `Monolayer` type. The source would raise an `IndexError` on them.
- An empty formula list, or an empty shift list, is excluded by a precondition. The source crashes on `layer_systems[0]` or `cartpos[-1]`. This precondition also drops the lookups that the source performs before it crashes.
- numpy arrays, `np.dot` and slicing become datatypes and linear arithmetic over `real`.
- IEEE rounding is not modelled. Python's float `% 1` can return 1.0 for tiny negative inputs, and the exact-real `Wrap` cannot.
- The numeric value of `np.sqrt(3)` is not modelled. `sqrt3` is any positive real whose square is 3.
- The unused `import os`.
