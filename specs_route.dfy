/** `GET /api/specs`: the summary list of the saved history. */
module SpecsRoute {
  import opened Common
  import opened SpecStore

  /** The five fields a summary carries; the tasks are left out. */
  datatype Summary = Summary(id: string, createdAt: string, goal: string, users: string, constraints: string)

  datatype ListResponse = Listed(summaries: seq<Summary>) | ListFailed(status: nat, message: string)

  function Summarize(spec: SpecRecord): (s: Summary)
    ensures s.id == spec.id && s.createdAt == spec.createdAt && s.goal == spec.goal
    ensures s.users == spec.users && s.constraints == spec.constraints
  {
    Summary(spec.id, spec.createdAt, spec.goal, spec.users, spec.constraints)
  }

  /** `specs.map(...)`: one summary per record, in the same order. */
  function SummarizeAll(specs: seq<SpecRecord>): (r: seq<Summary>)
    ensures |r| == |specs|
    ensures forall i :: 0 <= i < |specs| ==> r[i] == Summarize(specs[i])
  {
    if specs == [] then [] else [Summarize(specs[0])] + SummarizeAll(specs[1..])
  }

  /** `specs.slice(0, 5).map(...)`: the first five records, summarized in order. */
  function Summaries(specs: seq<SpecRecord>): (r: seq<Summary>)
    ensures |r| == Min(|specs|, HistoryLimit)
    ensures forall i :: 0 <= i < |r| ==> r[i] == Summarize(specs[i])
  {
    SummarizeAll(Take(specs, HistoryLimit))
  }

  /**
   * The handler: a missing or unreadable file lists nothing; a stored value
   * that is not an array makes `slice` throw, which is answered with 500.
   */
  function ListSpecs(f: StoredFile): (r: ListResponse)
    ensures f.NonArray? <==> r == ListFailed(500, "Failed to fetch specs")
    ensures (f.Missing? || f.Unreadable? || f == Records([])) ==> r == Listed([])
    ensures f.Records? ==> r == Listed(Summaries(f.specs))
  {
    match LoadSpecs(f)
    case None => ListFailed(500, "Failed to fetch specs")
    case Some(specs) => Listed(Summaries(specs))
  }

  /** Right after a successful generation, its summary heads the list. */
  lemma NewestGenerationListedFirst(h: seq<SpecRecord>, rec: SpecRecord)
    ensures var r := ListSpecs(Records(Pushed(h, rec)));
            r.Listed? && |r.summaries| == Min(|h| + 1, HistoryLimit) && r.summaries[0] == Summarize(rec)
  {
  }
}
