/**
 * The mocked API layer: canned data, the completion authority that decides
 * whether a progress report completes a resource, and the resource lookup.
 * The simulated network delays and the axios instance are not part of this
 * model; each call is its resolved value.
 */
module Api {
  import opened Types
  import opened JsNumbers

  /** The reply body of the completion authority: `{ completed }`. */
  datatype CompletionReply = CompletionReply(completed: bool)

  /** Percentage of the media that must be watched to complete it. */
  const CompletionPercent: real := 80.0

  /** `(watched / total) * 100 >= 80`, evaluated on JavaScript numbers. */
  predicate ReachesThreshold(watched: real, total: real) {
    AtLeast(Scale(Div(watched, total), 100.0), CompletionPercent)
  }

  /**
   * The threshold in plain arithmetic: at least four fifths of a positive
   * duration; at most four fifths of a negative one; and, for a zero
   * duration, any positive watched time (it divides to +Infinity).
   */
  lemma ThresholdArithmetic(watched: real, total: real)
    ensures total > 0.0 ==> (ReachesThreshold(watched, total) <==> 5.0 * watched >= 4.0 * total)
    ensures total < 0.0 ==> (ReachesThreshold(watched, total) <==> 5.0 * watched <= 4.0 * total)
    ensures total == 0.0 ==> (ReachesThreshold(watched, total) <==> watched > 0.0)
  {
    if total != 0.0 {
      var q := watched / total;
      assert ReachesThreshold(watched, total) <==> q * 100.0 >= 80.0;
      RatioCompare(watched, total);
    }
  }

  lemma RatioCompare(watched: real, total: real)
    requires total != 0.0
    ensures total > 0.0 ==> (watched / total >= 0.8 <==> 5.0 * watched >= 4.0 * total)
    ensures total < 0.0 ==> (watched / total >= 0.8 <==> 5.0 * watched <= 4.0 * total)
  {
    var q := watched / total;
    var p := q * total;
    assert p == watched;
    var d := q - 0.8;
    assert p - 0.8 * total == d * total;
    if total > 0.0 {
      assert d >= 0.0 <==> d * total >= 0.0;
    } else {
      assert d >= 0.0 <==> d * total <= 0.0;
    }
  }

  /** `heartbeat.isEnded || watchPercentage >= 80` */
  predicate HeartbeatCompleted(h: ProgressHeartbeat) {
    h.isEnded || ReachesThreshold(h.watchedSeconds, h.totalDuration)
  }

  /** `sendProgressHeartbeat`: always answers, and says whether the report completes the resource. */
  function SendProgressHeartbeat(h: ProgressHeartbeat): (r: ApiResponse<CompletionReply>)
    ensures r.success && r.data.Some? && r.error == None
    ensures h.totalDuration > 0.0 ==>
      (r.data.value.completed <==> h.isEnded || 5.0 * h.watchedSeconds >= 4.0 * h.totalDuration)
    ensures h.totalDuration == 0.0 ==>
      (r.data.value.completed <==> h.isEnded || h.watchedSeconds > 0.0)
  {
    ThresholdArithmetic(h.watchedSeconds, h.totalDuration);
    Succeeded(CompletionReply(HeartbeatCompleted(h)))
  }

  /** The boundary cases of the rule, on a 100-second resource and on an unknown (zero) duration. */
  lemma CompletionExamples()
    ensures HeartbeatCompleted(ProgressHeartbeat("u", "r", 80.0, 100.0, false, true))
    ensures !HeartbeatCompleted(ProgressHeartbeat("u", "r", 79.0, 100.0, false, true))
    ensures HeartbeatCompleted(ProgressHeartbeat("u", "r", 79.0, 100.0, true, true))
    ensures HeartbeatCompleted(ProgressHeartbeat("u", "r", 5.0, 0.0, false, true))
    ensures !HeartbeatCompleted(ProgressHeartbeat("u", "r", 0.0, 0.0, false, true))
  {
    ThresholdArithmetic(80.0, 100.0);
    ThresholdArithmetic(79.0, 100.0);
    ThresholdArithmetic(5.0, 0.0);
    ThresholdArithmetic(0.0, 0.0);
  }

  /** `getResource` over a list of nodes: the first resource with that id, in node order then resource order. */
  function GetResourceIn(nodes: seq<CareerNode>, resourceId: string): (r: ApiResponse<Resource>)
    ensures r.success <==> exists k :: 0 <= k < |AllResources(nodes)| && AllResources(nodes)[k].id == resourceId
    ensures r.success ==> r.data.Some? && r.error == None && r.data.value.id == resourceId
    ensures r.success ==> exists k :: 0 <= k < |AllResources(nodes)| && AllResources(nodes)[k] == r.data.value
                                      && forall j :: 0 <= j < k ==> AllResources(nodes)[j].id != resourceId
    ensures !r.success ==> r.data == None && r.error == Some("Resource not found")
  {
    var k := IndexOfResource(AllResources(nodes), resourceId);
    if k == -1 then Failed("Resource not found")
    else
      var r := Succeeded(AllResources(nodes)[k]);
      assert r.success && AllResources(nodes)[k].id == resourceId;
      r
  }

  /** A lookup hit is a resource held by one of the nodes. */
  lemma GetResourceFromNode(nodes: seq<CareerNode>, resourceId: string)
    requires GetResourceIn(nodes, resourceId).success
    ensures exists i :: 0 <= i < |nodes| && GetResourceIn(nodes, resourceId).data.value in nodes[i].resources
  {
    InAllResources(nodes, GetResourceIn(nodes, resourceId).data.value);
  }

  /** `getResource`: the lookup over the mock tree. */
  function GetResource(resourceId: string): (r: ApiResponse<Resource>)
    ensures r.success ==> r.data.Some? && r.data.value.id == resourceId && r.data.value in AllResources(MockCareerTree().nodes)
    ensures !r.success ==> r.error == Some("Resource not found")
                           && forall k :: 0 <= k < |AllResources(MockCareerTree().nodes)| ==> AllResources(MockCareerTree().nodes)[k].id != resourceId
  {
    GetResourceIn(MockCareerTree().nodes, resourceId)
  }

  /** `getCareerTree` answers with the one mock tree, whatever career is asked for. */
  function GetCareerTree(careerId: string): (r: ApiResponse<CareerTree>)
    ensures r.success && r.data == Some(MockCareerTree())
  {
    Succeeded(MockCareerTree())
  }

  /** `getRecommendations` answers with the mock list, whatever the skills are. */
  function GetRecommendations(skills: SkillVector): (r: ApiResponse<seq<CareerRecommendation>>)
    ensures r.success && r.data == Some(MockRecommendations())
  {
    Succeeded(MockRecommendations())
  }

  function GetAssessmentQuestions(): (r: ApiResponse<seq<AssessmentQuestion>>)
    ensures r.success && r.data == Some(MockQuestions())
  {
    Succeeded(MockQuestions())
  }

  lemma InputsIgnored(id1: string, id2: string, s1: SkillVector, s2: SkillVector)
    ensures GetCareerTree(id1) == GetCareerTree(id2)
    ensures GetRecommendations(s1) == GetRecommendations(s2)
  {
  }

  // ---------------------------------------------------------------- mock data

  function YouTubeResource(id: string, title: string, videoId: string, seconds: real): Resource {
    Resource(id, YouTube, title, Some(seconds), Some(videoId), None, None, false)
  }

  // The mock data's display texts are named constants, so that proofs about
  // the data's shape need not take the long string literals apart.

  const TreeTitle: string := "Full Stack Developer"
  const TreeDescription: string := "Master frontend , backend development and Database"
  const N1Title: string := "Web Fundamentals"
  const N1Description: string := "HTML, CSS, and JavaScript basics"
  const N2Title: string := "Frontend Framework"
  const N2Description: string := "React.js development"
  const N3Title: string := "Backend Basics"
  const N3Description: string := "Server-side programming fundamentals"
  const N4Title: string := "Databases"
  const N4Description: string := "Database fundamentals with SQL & NoSQL"
  const R1aTitle: string := "Complete HTML CSS JavaScript Course in Hindi"
  const R1bTitle: string := "JavaScript Full Course Tutorial for Beginners in Hindi"
  const R1cTitle: string := "Create Responsive Multipage Website using HTML, CSS & JavaScript in Hindi"
  const R2Title: string := "React Complete Course"
  const R2aTitle: string := "React JS Full Course in Hindi \U{2013} Learn React from scratch to advanced"
  const R2bTitle: string := "Namaste React by Akshay Saini"
  const R3Title: string := "Node.js Tutorial"
  const R3aTitle: string := "Build Complete RESTful API with NodeJS, Express, MongoDB (Hindi)"
  const R3bTitle: string := "Express JS Crash Course in Hindi"
  const R4Title: string := "MongoDB Tutorial in Hindi"
  const R4aTitle: string := "SQL Full Course in Hindi | SQL for Beginners"

  function MockCareerTree(): CareerTree {
    CareerTree("fullstack-dev", TreeTitle, TreeDescription, ["2024", "2025"],
      [ CareerNode("n1", None, N1Title, N1Description, 0,
          [ YouTubeResource("r1a", R1aTitle, "kkOuRJ69BRY", 14130.0),
            YouTubeResource("r1b", R1bTitle, "13gLB6hDHR8", 25200.0),
            YouTubeResource("r1c", R1cTitle, "NPkPtu61yV4", 10800.0) ],
          false, false),
        CareerNode("n2", Some("n1"), N2Title, N2Description, 1,
          [ YouTubeResource("r2", R2Title, "bMknfKXIFA8", 7200.0),
            YouTubeResource("r2a", R2aTitle, "LuNPCSNr-nE", 50400.0),
            YouTubeResource("r2b", R2bTitle, "83_7HQuIQfU", 43200.0) ],
          false, true),
        CareerNode("n3", Some("n1"), N3Title, N3Description, 1,
          [ YouTubeResource("r3", R3Title, "TlB_eWDSMt4", 5400.0),
            YouTubeResource("r3a", R3aTitle, "f4oPDjYMdF4", 21600.0),
            YouTubeResource("r3b", R3bTitle, "L72fhGm1tfE", 7200.0) ],
          false, true),
        CareerNode("n4", Some("n1"), N4Title, N4Description, 1,
          [ YouTubeResource("r4", R4Title, "WL4l73Mncgw", 14400.0),
            YouTubeResource("r4a", R4aTitle, "Bp703NkC00Q", 4920.0) ],
          false, true) ])
  }

  const FullStackPitch: string := "Build complete web applications from frontend to backend"
  const DataSciencePitch: string := "Analyze complex data to drive business decisions"
  const UxPitch: string := "Design intuitive user experiences for digital products"

  function MockRecommendations(): seq<CareerRecommendation> {
    [ CareerRecommendation("fullstack-dev", "Full Stack Developer", 95.0,
        FullStackPitch, "\U{20B9}4LPA - \U{20B9}30 LPA+", "High", ""),
      CareerRecommendation("data-scientist", "Data Scientist", 88.0,
        DataSciencePitch, "\U{20B9}5 LPA - 20 LPA+", "Very High", ""),
      CareerRecommendation("ux-designer", "UX Designer", 82.0,
        UxPitch, "\U{20B9}4.18LPA - \U{20B9}14 LPA+", "High", "") ]
  }

  const Q1Text: string := "What type of work environment energizes you most?"
  const Q1Options: seq<string> := ["Collaborative team settings with constant interaction", "Quiet spaces where I can focus deeply",
                                   "Dynamic environments with frequent changes", "Structured environments with clear processes"]
  const Q2Text: string := "How comfortable are you with learning new technologies?"
  const Q3Text: string := "Describe a project or achievement you're most proud of:"
  const Q4Text: string := "When solving problems, you prefer to:"
  const Q4Options: seq<string> := ["Break down complex problems into smaller parts", "Look for creative, unconventional solutions",
                                   "Research and analyze data thoroughly", "Collaborate and brainstorm with others"]
  const Q5Text: string := "How important is work-life balance to you?"

  function MockQuestions(): seq<AssessmentQuestion> {
    [ AssessmentQuestion("1", Mcq, Q1Text, Some(Q1Options), None, None, true),
      AssessmentQuestion("2", Slider, Q2Text, None, Some(1.0), Some(10.0), true),
      AssessmentQuestion("3", Text, Q3Text, None, None, None, true),
      AssessmentQuestion("4", Mcq, Q4Text, Some(Q4Options), None, None, true),
      AssessmentQuestion("5", Slider, Q5Text, None, Some(1.0), Some(10.0), true) ]
  }

  /** Node ids are distinct. */
  predicate UniqueNodeIds(nodes: seq<CareerNode>) {
    forall i, j :: 0 <= i < j < |nodes| ==> nodes[i].id != nodes[j].id
  }

  /** Every parent is absent or names a node of the tree. */
  predicate ParentsExist(nodes: seq<CareerNode>) {
    forall i :: 0 <= i < |nodes| && nodes[i].parent.Some? ==>
      exists j :: 0 <= j < |nodes| && nodes[j].id == nodes[i].parent.value
  }

  lemma MockIdsUnique()
    ensures UniqueNodeIds(MockCareerTree().nodes)
  {
    var nodes := MockCareerTree().nodes;
    assert nodes[0].id == "n1" && nodes[1].id == "n2" && nodes[2].id == "n3" && nodes[3].id == "n4";
  }

  lemma MockParentsExist()
    ensures ParentsExist(MockCareerTree().nodes)
  {
    var nodes := MockCareerTree().nodes;
    assert nodes[1].parent.value == nodes[0].id;
    assert nodes[2].parent.value == nodes[0].id;
    assert nodes[3].parent.value == nodes[0].id;
  }

  lemma MockOnlyRootUnlocked()
    ensures forall i :: 0 <= i < |MockCareerTree().nodes| ==>
              (!MockCareerTree().nodes[i].locked <==> MockCareerTree().nodes[i].parent == None)
  {
  }

  lemma MockNothingCompleted()
    ensures forall i :: 0 <= i < |MockCareerTree().nodes| ==> !MockCareerTree().nodes[i].completed
    ensures forall r :: r in AllResources(MockCareerTree().nodes) ==> !r.completed
  {
    var nodes := MockCareerTree().nodes;
    assert AllResources(nodes) == nodes[0].resources + nodes[1].resources + nodes[2].resources + nodes[3].resources;
  }
}
