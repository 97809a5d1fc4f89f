/**
 * The records the CareerPath front-end passes between its components,
 * its client-side store and its mocked API layer.
 *
 * JavaScript numbers are modelled as `real` where they are times, ratios or
 * scores, and as `int` where they are counts (level, XP, skill values).
 * Optional properties (`x?: T`, `T | null`) become `Option<T>`.
 */
module Types {

  datatype Option<+T> = None | Some(value: T)

  /** The `{ success, data?, error? }` envelope every API call resolves to. */
  datatype ApiResponse<+T> = ApiResponse(success: bool, data: Option<T>, error: Option<string>)

  function Succeeded<T>(data: T): ApiResponse<T> {
    ApiResponse(true, Some(data), None)
  }

  function Failed<T>(message: string): ApiResponse<T> {
    ApiResponse(false, None, Some(message))
  }

  datatype User = User(id: string, name: string, email: string, level: int, xp: int, maxXp: int,
                       selectedCareerId: Option<string>)

  datatype QuestionKind = Mcq | Slider | Text

  datatype AssessmentQuestion = AssessmentQuestion(
    id: string, kind: QuestionKind, question: string, options: Option<seq<string>>,
    min: Option<real>, max: Option<real>, required: bool)

  /** An answer is a `string | number`. */
  datatype AnswerValue = Str(text: string) | Num(number: real)

  datatype AssessmentAnswer = AssessmentAnswer(questionId: string, value: AnswerValue)

  datatype SkillVector = SkillVector(technical: int, creative: int, analytical: int,
                                     leadership: int, communication: int, problemSolving: int)

  datatype CareerRecommendation = CareerRecommendation(
    id: string, title: string, matchScore: real, shortDesc: string, salary: string,
    growth: string, icon: string)

  datatype ResourceKind = YouTube | Video | Article | Task

  datatype Resource = Resource(
    id: string, kind: ResourceKind, title: string, duration: Option<real>,
    externalId: Option<string>, content: Option<string>, previewUrl: Option<string>,
    completed: bool)

  datatype CareerNode = CareerNode(
    id: string, parent: Option<string>, title: string, description: string,
    requiredLevel: int, resources: seq<Resource>, completed: bool, locked: bool)

  datatype CareerTree = CareerTree(id: string, title: string, description: string,
                                   timeline: seq<string>, nodes: seq<CareerNode>)

  /** The progress report a player sends to the completion authority. */
  datatype ProgressHeartbeat = ProgressHeartbeat(
    userId: string, resourceId: string, watchedSeconds: real, totalDuration: real,
    isEnded: bool, visible: bool)

  /** `nodes.flatMap(node => node.resources)` */
  function AllResources(nodes: seq<CareerNode>): (rs: seq<Resource>)
    ensures |nodes| == 0 ==> rs == []
  {
    if |nodes| == 0 then [] else nodes[0].resources + AllResources(nodes[1..])
  }

  lemma {:induction false} AllResourcesAppend(a: seq<CareerNode>, b: seq<CareerNode>)
    ensures AllResources(a + b) == AllResources(a) + AllResources(b)
  {
    if |a| == 0 {
      assert a + b == b;
    } else {
      assert (a + b)[1..] == a[1..] + b;
      AllResourcesAppend(a[1..], b);
    }
  }

  /** A resource is in the flattened list exactly when some node holds it. */
  lemma {:induction false} InAllResources(nodes: seq<CareerNode>, r: Resource)
    ensures r in AllResources(nodes) <==> exists i :: 0 <= i < |nodes| && r in nodes[i].resources
  {
    if |nodes| > 0 {
      InAllResources(nodes[1..], r);
      if r in AllResources(nodes[1..]) {
        var i :| 0 <= i < |nodes[1..]| && r in nodes[1..][i].resources;
        assert r in nodes[i + 1].resources;
      }
      if exists i :: 0 <= i < |nodes| && r in nodes[i].resources {
        var i :| 0 <= i < |nodes| && r in nodes[i].resources;
        if i > 0 {
          assert r in nodes[1..][i - 1].resources;
        }
      }
    }
  }

  /** `rs.findIndex(r => r.id === id)`: the first position holding that id, or -1. */
  function IndexOfResource(rs: seq<Resource>, id: string): (k: int)
    ensures -1 <= k < |rs|
    ensures k == -1 <==> forall j :: 0 <= j < |rs| ==> rs[j].id != id
    ensures k >= 0 ==> rs[k].id == id && forall j :: 0 <= j < k ==> rs[j].id != id
  {
    if |rs| == 0 then -1
    else if rs[0].id == id then 0
    else
      var k := IndexOfResource(rs[1..], id);
      if k == -1 then -1 else k + 1
  }

  /** `nodes.findIndex(n => n.id === id)` */
  function IndexOfNode(nodes: seq<CareerNode>, id: string): (k: int)
    ensures -1 <= k < |nodes|
    ensures k == -1 <==> forall j :: 0 <= j < |nodes| ==> nodes[j].id != id
    ensures k >= 0 ==> nodes[k].id == id && forall j :: 0 <= j < k ==> nodes[j].id != id
  {
    if |nodes| == 0 then -1
    else if nodes[0].id == id then 0
    else
      var k := IndexOfNode(nodes[1..], id);
      if k == -1 then -1 else k + 1
  }
}
