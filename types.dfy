/** The enumerations shared by the whole pipeline. */
module Types {
  import opened Wrappers

  /** The role of a drawn entity on the die. */
  datatype LineCategory = Cut | Crease | Auxiliary | Plywood | Unknown

  /** Copper plates and automatic-machine plates differ in frame margins. */
  datatype PlateType = Copper | Auto

  /** Drawings for the front side are mirrored. */
  datatype Side = Front | Back

  /** AutoCAD Color Index values used by the source. */
  const RED: int := 1
  const YELLOW: int := 2
  const GREEN: int := 3
  const CYAN: int := 4
  const BLUE: int := 5
  const MAGENTA: int := 6
  const WHITE: int := 7
  const BYLAYER: int := 256
  const BYBLOCK: int := 0

  /** The enumeration member name, as `.name` yields it. */
  function CategoryName(c: LineCategory): string {
    match c
    case Cut => "CUT"
    case Crease => "CREASE"
    case Auxiliary => "AUXILIARY"
    case Plywood => "PLYWOOD"
    case Unknown => "UNKNOWN"
  }

  function SideName(s: Side): string {
    match s
    case Front => "FRONT"
    case Back => "BACK"
  }

  function PlateTypeName(p: PlateType): string {
    match p
    case Copper => "COPPER"
    case Auto => "AUTO"
  }

  /** `Side[name]`: lookup of a member by its name. */
  function SideFromName(n: string): (r: Option<Side>)
    ensures r.Some? ==> SideName(r.value) == n
    ensures r.None? <==> n != SideName(Front) && n != SideName(Back)
  {
    if n == "FRONT" then Some(Front)
    else if n == "BACK" then Some(Back)
    else None
  }

  function PlateTypeFromName(n: string): (r: Option<PlateType>)
    ensures r.Some? ==> PlateTypeName(r.value) == n
    ensures r.None? <==> n != PlateTypeName(Copper) && n != PlateTypeName(Auto)
  {
    if n == "COPPER" then Some(Copper)
    else if n == "AUTO" then Some(Auto)
    else None
  }

  /** Every member is found again by its name. */
  lemma NameRoundTrips(s: Side, p: PlateType)
    ensures SideFromName(SideName(s)) == Some(s)
    ensures PlateTypeFromName(PlateTypeName(p)) == Some(p)
  {
  }
}
