/**
 * Monolayer lookup and layer descriptor extraction.
 *
 * A reference monolayer is a record of at least three atoms, assumed to
 * come in the order metal, chalcogen, chalcogen (M, X, X).
 * The structure database is a parameter: a function from a query to the
 * list of matching records.
 */
module Layer {
  import opened Geometry
  import opened Wrappers

  /** A structure as the database hands it out: lattice rows, positions, symbols. */
  datatype Atoms = Atoms(cell: Lattice, positions: seq<Vec3>, symbols: seq<string>)

  /** A reference single-layer 2H record: at least three atoms, assumed M, X, X. */
  type Monolayer = m: Atoms | |m.positions| >= 3 && |m.symbols| >= 3
    witness Atoms(Lattice(Vec3(0.0, 0.0, 0.0), Vec3(0.0, 0.0, 0.0), Vec3(0.0, 0.0, 0.0)),
                  [Vec3(0.0, 0.0, 0.0), Vec3(0.0, 0.0, 0.0), Vec3(0.0, 0.0, 0.0)],
                  ["", "", ""])

  /** The selection `formula=..., xc=..., phase=...` sent to the database. */
  datatype Query = Query(formula: string, xc: string, phase: string)

  /** The database's `select`: every record matching a query, in database order. */
  type Database = Query -> seq<Monolayer>

  /** Exchange-correlation functional fixed in every query. */
  const Functional := "PBE"

  /** Phase requested for every layer of a stack. */
  const ReferencePhase := "H"

  datatype LookupError =
    | MultipleMatches(formula: string, phase: string)
    | NoMatches(formula: string, phase: string)

  /** Resolves one formula and phase to the single matching record. */
  function GetLayerSystem(db: Database, formula: string, phase: string): (r: Result<Monolayer, LookupError>)
    ensures r.Ok? <==> |db(Query(formula, Functional, phase))| == 1
    ensures r.Ok? ==> db(Query(formula, Functional, phase)) == [r.value]
    ensures |db(Query(formula, Functional, phase))| > 1 ==> r == Err(MultipleMatches(formula, phase))
    ensures db(Query(formula, Functional, phase)) == [] ==> r == Err(NoMatches(formula, phase))
  {
    var matches := db(Query(formula, Functional, phase));
    if |matches| > 1 then Err(MultipleMatches(formula, phase))
    else if |matches| == 0 then Err(NoMatches(formula, phase))
    else Ok(matches[0])
  }

  /**
   * Resolves every formula of a stack in order, in the reference phase;
   * the first lookup that fails decides the error.
   */
  function LookupLayers(db: Database, formulas: seq<string>): (r: Result<seq<Monolayer>, LookupError>)
    ensures r.Ok? ==> |r.value| == |formulas|
    ensures r.Ok? ==> forall i :: 0 <= i < |formulas| ==> GetLayerSystem(db, formulas[i], ReferencePhase) == Ok(r.value[i])
    ensures r.Err? ==> exists i :: 0 <= i < |formulas| && GetLayerSystem(db, formulas[i], ReferencePhase) == Err(r.error)
                                   && forall j :: 0 <= j < i ==> GetLayerSystem(db, formulas[j], ReferencePhase).Ok?
  {
    if formulas == [] then Ok([])
    else
      match GetLayerSystem(db, formulas[0], ReferencePhase)
      case Err(e) => Err(e)
      case Ok(m) =>
        match LookupLayers(db, formulas[1..])
        case Err(e) =>
          assert forall i :: 0 < i <= |formulas[1..]| ==> formulas[1..][i - 1] == formulas[i];
          Err(e)
        case Ok(ms) => Ok([m] + ms)
  }

  /** In-plane lattice constant: the first component of the first lattice row. */
  function AFrom2H(m: Monolayer): (r: real)
    ensures r == m.cell.a1.x
  {
    m.cell.a1.x
  }

  /** Layer height: z of atom 2 minus z of atom 1 (the two chalcogens). */
  function HFrom2H(m: Monolayer): (r: real)
    ensures m.positions[1].z + r == m.positions[2].z
  {
    m.positions[2].z - m.positions[1].z
  }

  /** The (metal, chalcogen) pair: the symbols of atoms 0 and 1. */
  function SymbolsFrom2H(m: Monolayer): (r: (string, string))
    ensures r.0 == m.symbols[0] && r.1 == m.symbols[1]
  {
    (m.symbols[0], m.symbols[1])
  }
}
