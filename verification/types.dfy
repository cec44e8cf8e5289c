/** The task record of src/types.ts, with its two enumerations. */
module Types {
  import opened Wrappers

  datatype TaskStatus = Open | Done

  datatype Stage = PreProduction | Production | PostProduction

  datatype Task = Task(
    id: string,
    title: string,
    status: TaskStatus,
    stage: Stage,
    dueDate: Option<string>)

  /** The string each status has on the wire. */
  function StatusName(s: TaskStatus): (name: string)
    ensures name == "Open" || name == "Done"
  {
    match s
    case Open => "Open"
    case Done => "Done"
  }

  /** The string each stage has on the wire and in the stage picker. */
  function StageName(s: Stage): (name: string)
    ensures name in {"Pre-production", "Production", "Post-production"}
  {
    match s
    case PreProduction => "Pre-production"
    case Production => "Production"
    case PostProduction => "Post-production"
  }

  /** The wire names tell the enumeration values apart. */
  lemma NamesInjective(a: TaskStatus, b: TaskStatus, x: Stage, y: Stage)
    ensures StatusName(a) == StatusName(b) ==> a == b
    ensures StageName(x) == StageName(y) ==> x == y
  {
  }
}
