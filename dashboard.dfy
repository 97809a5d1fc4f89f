/**
 * The learner dashboard: resource counts over the current career, the
 * completion percentage and XP progress as JavaScript numbers, and the
 * three strongest skills.  A visitor without a user sees the assessment
 * prompt instead.
 */
module Dashboard {
  import opened Types
  import opened JsNumbers
  import opened SkillRanking
  import opened CareerTreePage

  /** `resources.filter(r => r.completed).length` */
  function CountCompleted(rs: seq<Resource>): (n: nat)
    ensures n <= |rs|
    ensures n == |rs| <==> forall j :: 0 <= j < |rs| ==> rs[j].completed
    ensures n == 0 <==> forall j :: 0 <= j < |rs| ==> !rs[j].completed
  {
    if |rs| == 0 then 0
    else
      var rest := CountCompleted(rs[1..]);
      assert forall j :: 1 <= j < |rs| ==> rs[j] == rs[1..][j - 1];
      (if rs[0].completed then 1 else 0) + rest
  }

  /** `getCompletedResources`: 0 without a career. */
  function CompletedResources(career: Option<CareerTree>): nat {
    if career.None? then 0 else CountCompleted(AllResources(career.value.nodes))
  }

  /** `getTotalResources`: 0 without a career. */
  function TotalResources(career: Option<CareerTree>): nat {
    if career.None? then 0 else |AllResources(career.value.nodes)|
  }

  /** The completed count never exceeds the total, and reaches it exactly when every resource is completed. */
  lemma ResourceCounts(career: Option<CareerTree>)
    ensures CompletedResources(career) <= TotalResources(career)
    ensures career.None? ==> CompletedResources(career) == 0 && TotalResources(career) == 0
    ensures career.Some? ==>
      (CompletedResources(career) == TotalResources(career) <==> forall r :: r in AllResources(career.value.nodes) ==> r.completed)
  {
  }

  lemma {:induction false} CountCompletedAppend(a: seq<Resource>, b: seq<Resource>)
    ensures CountCompleted(a + b) == CountCompleted(a) + CountCompleted(b)
  {
    if |a| > 0 {
      assert (a + b)[1..] == a[1..] + b;
      CountCompletedAppend(a[1..], b);
    } else {
      assert a + b == b;
    }
  }

  lemma {:induction false} MarkResourcesCount(rs: seq<Resource>, resourceId: string)
    ensures CountCompleted(MarkResources(rs, resourceId)) >= CountCompleted(rs)
  {
    if |rs| > 0 {
      var out := MarkResources(rs, resourceId);
      assert out[1..] == MarkResources(rs[1..], resourceId);
      MarkResourcesCount(rs[1..], resourceId);
    }
  }

  lemma {:induction false} MarkNodesCount(nodes: seq<CareerNode>, nodeId: string, resourceId: string)
    ensures |AllResources(MarkNodes(nodes, nodeId, resourceId))| == |AllResources(nodes)|
    ensures CountCompleted(AllResources(MarkNodes(nodes, nodeId, resourceId))) >= CountCompleted(AllResources(nodes))
  {
    if |nodes| > 0 {
      var out := MarkNodes(nodes, nodeId, resourceId);
      assert out[1..] == MarkNodes(nodes[1..], nodeId, resourceId);
      MarkNodesCount(nodes[1..], nodeId, resourceId);
      MarkResourcesCount(nodes[0].resources, resourceId);
      CountCompletedAppend(out[0].resources, AllResources(out[1..]));
      CountCompletedAppend(nodes[0].resources, AllResources(nodes[1..]));
    }
  }

  /** Completing a resource on the roadmap never lowers the dashboard's completed count and keeps the total. */
  lemma CompletionNeverLowersProgress(career: CareerTree, nodeId: string, resourceId: string)
    ensures var after := Some(MarkResourceComplete(career, nodeId, resourceId));
            && TotalResources(after) == TotalResources(Some(career))
            && CompletedResources(after) >= CompletedResources(Some(career))
  {
    MarkNodesCount(career.nodes, nodeId, resourceId);
  }

  /** `(xp / maxXp) * 100` */
  function LevelProgress(u: User): (p: Num)
    ensures u.maxXp != 0 ==> p.Fin?
    ensures u.maxXp > 0 ==> p.v * u.maxXp as real == 100.0 * u.xp as real
    ensures 0 <= u.xp <= u.maxXp && u.maxXp > 0 ==> 0.0 <= p.v <= 100.0
    ensures u.maxXp == 0 ==> p == (if u.xp > 0 then PosInf else if u.xp < 0 then NegInf else NaN)
  {
    if u.maxXp > 0 then
      PercentOf(u.xp as real, u.maxXp as real);
      Scale(Div(u.xp as real, u.maxXp as real), 100.0)
    else Scale(Div(u.xp as real, u.maxXp as real), 100.0)
  }

  /**
   * `Math.round(completed / total * 100)`: the whole percentage nearest to
   * the exact share (halves up), between 0 and 100, or NaN for a career
   * without resources.
   */
  function PercentComplete(career: CareerTree): (p: Num)
    ensures |AllResources(career.nodes)| == 0 ==> p == NaN
    ensures |AllResources(career.nodes)| > 0 ==>
      var share := CountCompleted(AllResources(career.nodes)) as real / |AllResources(career.nodes)| as real * 100.0;
      && p.Fin? && 0.0 <= p.v <= 100.0
      && p.v == p.v.Floor as real
      && share - 0.5 < p.v <= share + 0.5
  {
    var c := CountCompleted(AllResources(career.nodes)) as real;
    var t := |AllResources(career.nodes)| as real;
    if t > 0.0 then
      PercentOf(c, t);
      Round(Scale(Div(c, t), 100.0))
    else Round(Scale(Div(c, t), 100.0))
  }

  /** A career whose every resource is completed shows 100. */
  lemma PercentCompleteFull(career: CareerTree)
    requires |AllResources(career.nodes)| > 0
    requires forall j :: 0 <= j < |AllResources(career.nodes)| ==> AllResources(career.nodes)[j].completed
    ensures PercentComplete(career) == Fin(100.0)
  {
    var t := |AllResources(career.nodes)| as real;
    assert CountCompleted(AllResources(career.nodes)) as real == t;
    PercentOf(t, t);
    assert RoundReal(100.0) == 100;
  }

  /** A career with resources none of which is completed shows 0. */
  lemma PercentCompleteNone(career: CareerTree)
    requires |AllResources(career.nodes)| > 0
    requires forall j :: 0 <= j < |AllResources(career.nodes)| ==> !AllResources(career.nodes)[j].completed
    ensures PercentComplete(career) == Fin(0.0)
  {
    var t := |AllResources(career.nodes)| as real;
    assert CountCompleted(AllResources(career.nodes)) == 0;
    assert 0.0 / t == 0.0;
    assert RoundReal(0.0) == 0;
  }

  /** `getTopSkills`: nothing without a skill vector, otherwise the three strongest skills. */
  function TopSkills(sv: Option<SkillVector>): (top: seq<Skill>)
    ensures sv.None? ==> top == []
    ensures sv.Some? ==> top == Top(SkillList(sv.value), 3) && |top| == 3 && SortedDesc(top)
  {
    if sv.None? then [] else Top(SkillList(sv.value), 3)
  }

  /** What the dashboard renders. */
  datatype View =
    | AssessmentPrompt
    | Stats(levelProgress: Num, completed: nat, total: nat, percent: Option<Num>, topSkills: seq<Skill>)

  function Render(user: Option<User>, career: Option<CareerTree>, sv: Option<SkillVector>): (v: View)
    ensures v.AssessmentPrompt? <==> user.None?
    ensures v.Stats? ==> v.completed <= v.total && (v.percent.Some? <==> career.Some?)
    ensures v.Stats? ==> v.levelProgress == LevelProgress(user.value) && v.topSkills == TopSkills(sv)
  {
    if user.None? then AssessmentPrompt
    else
      ResourceCounts(career);
      Stats(LevelProgress(user.value), CompletedResources(career), TotalResources(career),
            if career.Some? then Some(PercentComplete(career.value)) else None, TopSkills(sv))
  }
}
