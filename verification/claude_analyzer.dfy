/** The AI scoring wrapper: one remote call per project whose parsed reply is clamped into
    0..100 and turned into a priority, with the rule-based scorer as the fallback whenever the
    analyzer is off or the call or its parsing fails. */
module ClaudeAnalysis {
  import opened Values
  import opened Config
  import opened Scorer
  import opened Seqs

  /** The JSON object the model replies with, as far as `score_project` reads it: each field may
      be missing. */
  datatype Reply = Reply(score: Option<Value>, reasoning: Option<Value>, recommendation: Option<Value>)

  /** `max(0, min(100, score))` */
  function Clamp(score: int): (r: int)
    ensures 0 <= r <= 100
    ensures 0 <= score <= 100 ==> r == score
    ensures score < 0 ==> r == 0
    ensures score > 100 ==> r == 100
  {
    if score > 100 then 100 else if score < 0 then 0 else score
  }

  /** Clamping never reverses the order of two scores. */
  lemma ClampMonotone(a: int, b: int)
    requires a <= b
    ensures Clamp(a) <= Clamp(b)
  {
  }

  /** `result.get('score', 50)` when it is a number; `None` when the clamp would raise on it. */
  function ReplyScore(reply: Reply): (r: Option<int>)
    ensures reply.score.None? ==> r == Some(50)
    ensures reply.score.Some? ==> (r.Some? <==> reply.score.value.Int?)
    ensures reply.score.Some? && r.Some? ==> reply.score.value == Int(r.value)
  {
    match reply.score
    case None => Some(50)
    case Some(Int(n)) => Some(n)
    case Some(_) => None
  }

  /** The call is made and its reply is used: the analyzer is on, the call and the JSON parse
      succeed (`reply` is `Some`), and the score compares with numbers. Otherwise an exception
      is caught, or the analyzer is off, and the rule-based scorer decides. */
  predicate Answered(enabled: bool, reply: Option<Reply>) {
    enabled && reply.Some? && ReplyScore(reply.value).Some?
  }

  /** The fields the success path writes. */
  predicate IsAiField(k: string) {
    k == "ai_score" || k == "priority" || k == "ai_reasoning" || k == "ai_recommendation" || k == "scoring_method"
  }

  function TextOr(v: Option<Value>): Value {
    if v.Some? then v.value else Str("")
  }

  /** The clamped score of an answered call. */
  function AiScore(reply: Reply): int
    requires ReplyScore(reply).Some?
  {
    Clamp(ReplyScore(reply).value)
  }

  /** The five assignments of the success path, given the values they store. */
  function AiStamp(project: Dict, score: int, priority: string, reply: Reply): Dict {
    project["ai_score" := Int(score)]
           ["priority" := Str(priority)]
           ["ai_reasoning" := TextOr(reply.reasoning)]
           ["ai_recommendation" := TextOr(reply.recommendation)]
           ["scoring_method" := Str("claude_ai")]
  }

  /** Stamping adds the success-path fields and leaves every other field as it was. */
  lemma AiStampKeeps(project: Dict, score: int, priority: string, reply: Reply)
    ensures var r := AiStamp(project, score, priority, reply);
      && (forall k :: k in r <==> k in project || IsAiField(k))
      && (forall k :: k in project && !IsAiField(k) ==> r[k] == project[k])
  {
  }

  /** `score_project(project)`; `reply` is the outcome of the remote call and JSON parse for this
      project (`None` where either raises). The update in place is modelled as returning the
      updated record. */
  function ScoreProject(project: Dict, enabled: bool, reply: Option<Reply>, t: Thresholds): (r: Dict)
    requires Answered(enabled, reply) || ScorerInput(project)
    ensures "ai_score" in r && r["ai_score"].Int? && 0 <= r["ai_score"].i <= 100
    ensures "priority" in r && r["priority"] == Str(PriorityName(ProjectPriority(project, enabled, reply, t)))
    ensures "scoring_method" in r && r["scoring_method"] == Str(if Answered(enabled, reply) then "claude_ai" else "rule_based")
    ensures forall k :: k in project ==> k in r
  {
    if !Answered(enabled, reply) then ScoreRecord(project, t)
    else
      var score := AiScore(reply.value);
      AiStamp(project, score, PriorityName(DeterminePriority(score, t)), reply.value)
  }

  /** Without an answer the project is scored by the rules; with one it gets the clamped score,
      the priority of that score, the reasoning, the recommendation and the method `claude_ai`,
      and keeps every other field. */
  lemma ScoreProjectWrites(project: Dict, enabled: bool, reply: Option<Reply>, t: Thresholds)
    requires Answered(enabled, reply) || ScorerInput(project)
    ensures var r := ScoreProject(project, enabled, reply, t);
      && (!Answered(enabled, reply) ==> r == ScoreRecord(project, t))
      && (Answered(enabled, reply) ==>
        var score := AiScore(reply.value);
        && (forall k :: k in r <==> k in project || IsAiField(k))
        && (forall k :: k in project && !IsAiField(k) ==> r[k] == project[k])
        && r["ai_score"] == Int(score) && 0 <= score <= 100
        && r["priority"] == Str(PriorityName(DeterminePriority(score, t)))
        && r["ai_reasoning"] == TextOr(reply.value.reasoning)
        && r["ai_recommendation"] == TextOr(reply.value.recommendation)
        && r["scoring_method"] == Str("claude_ai"))
  {
    if Answered(enabled, reply) {
      var score := AiScore(reply.value);
      AiStampKeeps(project, score, PriorityName(DeterminePriority(score, t)), reply.value);
    }
  }

  /** The priority `score_project` writes. */
  function ProjectPriority(project: Dict, enabled: bool, reply: Option<Reply>, t: Thresholds): Priority
    requires Answered(enabled, reply) || ScorerInput(project)
  {
    if Answered(enabled, reply) then DeterminePriority(AiScore(reply.value), t) else RulePriority(project, t)
  }

  /** A scored project is tallied under the priority it was given, never missing or unknown. */
  lemma ProjectTallied(project: Dict, enabled: bool, reply: Option<Reply>, t: Thresholds)
    requires Answered(enabled, reply) || ScorerInput(project)
    ensures TalliedPriority(ScoreProject(project, enabled, reply, t)) == Some(ProjectPriority(project, enabled, reply, t))
  {
    if Answered(enabled, reply) {
      var p := ProjectPriority(project, enabled, reply, t);
      ScoreProjectWrites(project, enabled, reply, t);
      assert ParsePriority(Str(PriorityName(p))) == Some(p);
    } else {
      ScoredPriority(project, t);
    }
  }

  /** An answered call's score, with the model's own sub-scores ignored, decides the priority
      with the same thresholds as the rule-based scorer, and a higher reply score never lowers it. */
  lemma AnsweredPriorityMonotone(a: Reply, b: Reply, t: Thresholds)
    requires ReplyScore(a).Some? && ReplyScore(b).Some? && ReplyScore(a).value <= ReplyScore(b).value
    requires Ordered(t)
    ensures Level(DeterminePriority(AiScore(a), t)) <= Level(DeterminePriority(AiScore(b), t))
  {
    ClampMonotone(ReplyScore(a).value, ReplyScore(b).value);
    PriorityMonotone(AiScore(a), AiScore(b), t);
  }

  // ---------------------------------------------------------------- batch_score

  /** Every project can be scored: its call is answered or the rule-based scorer can read it. */
  predicate Scorable(projects: seq<Dict>, enabled: bool, replies: seq<Option<Reply>>) {
    && |replies| == |projects|
    && forall i :: 0 <= i < |projects| ==> Answered(enabled, replies[i]) || ScorerInput(projects[i])
  }

  /** `score_project` with the analyzer switched on or off, applied to a project and the reply
      its call gets. */
  function ProjectScorer(enabled: bool, t: Thresholds): (Dict, Option<Reply>) --> Dict {
    (project, reply) requires Answered(enabled, reply) || ScorerInput(project) => ScoreProject(project, enabled, reply, t)
  }

  /** The priority a scored project carries. */
  function ProjectPrioritizer(enabled: bool, t: Thresholds): (Dict, Option<Reply>) --> Priority {
    (project, reply) requires Answered(enabled, reply) || ScorerInput(project) => ProjectPriority(project, enabled, reply, t)
  }

  /** `[self.score_project(p) for p in projects]`, each project with the reply its call gets. */
  function ScoreEach(projects: seq<Dict>, enabled: bool, replies: seq<Option<Reply>>, t: Thresholds): seq<Dict>
    requires Scorable(projects, enabled, replies)
  {
    Map2(projects, replies, ProjectScorer(enabled, t))
  }

  /** The priorities the scored projects carry, in input order. */
  function PriorityEach(projects: seq<Dict>, enabled: bool, replies: seq<Option<Reply>>, t: Thresholds): seq<Priority>
    requires Scorable(projects, enabled, replies)
  {
    Map2(projects, replies, ProjectPrioritizer(enabled, t))
  }

  /** Scoring one more project extends both lists by that project's result and priority. */
  lemma ProjectSnoc(projects: seq<Dict>, enabled: bool, replies: seq<Option<Reply>>, t: Thresholds, i: nat)
    requires Scorable(projects, enabled, replies) && i < |projects|
    ensures Scorable(projects[..i], enabled, replies[..i]) && Scorable(projects[..i + 1], enabled, replies[..i + 1])
    ensures ScoreEach(projects[..i + 1], enabled, replies[..i + 1], t)
      == ScoreEach(projects[..i], enabled, replies[..i], t) + [ScoreProject(projects[i], enabled, replies[i], t)]
    ensures PriorityEach(projects[..i + 1], enabled, replies[..i + 1], t)
      == PriorityEach(projects[..i], enabled, replies[..i], t) + [ProjectPriority(projects[i], enabled, replies[i], t)]
  {
    Map2Snoc(projects, replies, ProjectScorer(enabled, t), i);
    Map2Snoc(projects, replies, ProjectPrioritizer(enabled, t), i);
  }

  /** `results.append(self.score_project(project))` */
  method AppendProject(projects: seq<Dict>, enabled: bool, replies: seq<Option<Reply>>, t: Thresholds, i: nat,
                       results: seq<Dict>) returns (next: seq<Dict>)
    requires Scorable(projects, enabled, replies) && i < |projects|
    requires Scorable(projects[..i], enabled, replies[..i])
    requires results == ScoreEach(projects[..i], enabled, replies[..i], t)
    ensures Scorable(projects[..i + 1], enabled, replies[..i + 1])
    ensures next == ScoreEach(projects[..i + 1], enabled, replies[..i + 1], t)
  {
    ProjectSnoc(projects, enabled, replies, t, i);
    next := results + [ScoreProject(projects[i], enabled, replies[i], t)];
  }

  /** `score_distribution[scored.get('priority', 'Low')] += 1` */
  method TallyProject(projects: seq<Dict>, enabled: bool, replies: seq<Option<Reply>>, t: Thresholds, i: nat,
                      dist: Distribution) returns (next: Distribution)
    requires Scorable(projects, enabled, replies) && i < |projects|
    requires Scorable(projects[..i], enabled, replies[..i])
    requires dist == Distribute(PriorityEach(projects[..i], enabled, replies[..i], t))
    ensures Scorable(projects[..i + 1], enabled, replies[..i + 1])
    ensures next == Distribute(PriorityEach(projects[..i + 1], enabled, replies[..i + 1], t))
  {
    var scored := ScoreProject(projects[i], enabled, replies[i], t);
    ProjectTallied(projects[i], enabled, replies[i], t);
    var p := TalliedPriority(scored).value;
    ProjectSnoc(projects, enabled, replies, t, i);
    ghost var ps := PriorityEach(projects[..i], enabled, replies[..i], t);
    assert (ps + [p])[..|ps|] == ps;
    next := Tally(dist, p);
  }

  /** `batch_score(projects)`: the scored projects in order, and the per-priority counts it logs. */
  method BatchScore(projects: seq<Dict>, enabled: bool, replies: seq<Option<Reply>>, t: Thresholds)
    returns (results: seq<Dict>, dist: Distribution)
    requires Scorable(projects, enabled, replies)
    ensures results == ScoreEach(projects, enabled, replies, t)
    ensures dist == Distribute(PriorityEach(projects, enabled, replies, t))
  {
    if |projects| == 0 {
      return [], Distribution(0, 0, 0, 0);
    }
    results := [];
    dist := Distribution(0, 0, 0, 0);
    var i := 0;
    while i < |projects|
      invariant i <= |projects|
      invariant Scorable(projects[..i], enabled, replies[..i])
      invariant results == ScoreEach(projects[..i], enabled, replies[..i], t)
      invariant dist == Distribute(PriorityEach(projects[..i], enabled, replies[..i], t))
    {
      results := AppendProject(projects, enabled, replies, t, i, results);
      dist := TallyProject(projects, enabled, replies, t, i, dist);
      i := i + 1;
    }
    assert projects[..i] == projects && replies[..i] == replies;
  }

  /** What `batch_score` promises: as many results as projects, each the scored project at the
      same position, and counts that add up to the number of projects, one per priority carried. */
  lemma BatchScoreMeaning(projects: seq<Dict>, enabled: bool, replies: seq<Option<Reply>>, t: Thresholds, i: nat)
    requires Scorable(projects, enabled, replies) && i < |projects|
    ensures |ScoreEach(projects, enabled, replies, t)| == |projects|
    ensures ScoreEach(projects, enabled, replies, t)[i] == ScoreProject(projects[i], enabled, replies[i], t)
    ensures TalliedPriority(ScoreEach(projects, enabled, replies, t)[i]) == Some(PriorityEach(projects, enabled, replies, t)[i])
    ensures var ps := PriorityEach(projects, enabled, replies, t);
      && Sum(Distribute(ps)) == |projects|
      && Distribute(ps) == Distribution(Occurrences(ps, Critical), Occurrences(ps, High), Occurrences(ps, Medium), Occurrences(ps, Low))
  {
    Map2At(projects, replies, ProjectScorer(enabled, t), i);
    Map2At(projects, replies, ProjectPrioritizer(enabled, t), i);
    ProjectTallied(projects[i], enabled, replies[i], t);
    DistributeCounts(PriorityEach(projects, enabled, replies, t));
  }

  /** With the analyzer off, the batch is exactly the rule-based batch. */
  lemma DisabledIsRuleBased(projects: seq<Dict>, replies: seq<Option<Reply>>, t: Thresholds)
    requires Scorable(projects, false, replies)
    ensures forall i :: 0 <= i < |projects| ==> ScorerInput(projects[i])
    ensures ScoreEach(projects, false, replies, t) == ScoreAll(projects, t)
  {
    Map2AsMap(projects, replies, ProjectScorer(false, t), RuleScorer(t));
  }
}
