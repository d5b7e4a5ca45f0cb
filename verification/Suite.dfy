/** The parts of a test suite that running and summarizing it read. */
module Suite {
  import opened AttemptResults

  /** `tool` is set for the judges that are about one tool. */
  datatype JudgeSpec = JudgeSpec(judge: string, tool: Option<string>)

  datatype Case = Case(id: string, specs: seq<JudgeSpec>)

  const CONSISTENCY := "consistency"
  const LATENCY_UNDER := "latency_under"

  function CaseIds(cases: seq<Case>): (ids: seq<string>)
    ensures |ids| == |cases| && forall i :: 0 <= i < |cases| ==> ids[i] == cases[i].id
  {
    seq(|cases|, i requires 0 <= i < |cases| => cases[i].id)
  }

  /** The suite schema refuses two cases with the same id. */
  ghost predicate Valid(cases: seq<Case>) {
    Distinct(CaseIds(cases))
  }

  /** A case's place in the suite; every unknown case comes after all of them. */
  function Rank(cases: seq<Case>, id: string): (r: nat)
    ensures r <= |cases|
    ensures r < |cases| ==> cases[r].id == id
    ensures r == |cases| <==> id !in CaseIds(cases)
  {
    if cases == [] then 0
    else if cases[0].id == id then assert CaseIds(cases)[0] == id; 0
    else
      IdsCons(cases, id);
      1 + Rank(cases[1..], id)
  }

  lemma IdsCons(cases: seq<Case>, id: string)
    requires cases != []
    ensures id in CaseIds(cases) <==> id == cases[0].id || id in CaseIds(cases[1..])
  {
    assert CaseIds(cases) == [cases[0].id] + CaseIds(cases[1..]);
  }
}
