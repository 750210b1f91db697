/**
 * server.js: the task-evaluation server.  A task is graded into one of four
 * XP tiers, either by keyword search in demo mode (`mockEvaluate`) or by
 * reading the tier marker out of the language model's reply; both routes
 * reject a missing description.  The model's reply text is a parameter:
 * the call itself is outside the model.
 */
module TaskServer {
  import opened Wrappers
  import opened Text

  datatype Tier = Common | StrongWork | BustingChops | Legendary

  datatype TierData = TierData(name: string, xp: int, color: string)

  /** `XP_TIERS`. */
  function XpTier(t: Tier): TierData {
    match t
    case Common => TierData("Common", 10, "#9ca3af")
    case StrongWork => TierData("Strong Work", 25, "#3b82f6")
    case BustingChops => TierData("Busting Chops", 50, "#8b5cf6")
    case Legendary => TierData("Legendary", 150, "#f59e0b")
  }

  /** The key of a tier in `XP_TIERS`. */
  function TierKey(t: Tier): string {
    match t
    case Common => "COMMON"
    case StrongWork => "STRONG_WORK"
    case BustingChops => "BUSTING_CHOPS"
    case Legendary => "LEGENDARY"
  }

  /** The marker the reply is asked to start with: the tier key and a colon. */
  function Marker(t: Tier): (m: string)
    ensures |m| > 0 && m[|m| - 1] == ':'
  {
    TierKey(t) + ":"
  }

  /** Where a tier stands in the order both routes try them: Legendary first, Common last. */
  function Rank(t: Tier): nat {
    match t
    case Common => 0
    case StrongWork => 1
    case BustingChops => 2
    case Legendary => 3
  }

  /** The tiers grant more XP the higher they rank. */
  lemma XpFollowsRank(t: Tier, u: Tier)
    requires Rank(t) < Rank(u)
    ensures XpTier(t).xp < XpTier(u).xp
  {
  }

  // ----- mockEvaluate -----

  /** The keywords of each tier; Common has none, being the default. */
  function Keywords(t: Tier): seq<string> {
    match t
    case Common => []
    case StrongWork => ["laundry", "grocery", "cleaned", "studied", "finished", "completed"]
    case BustingChops => ["deep clean", "entire", "major project", "organized", "workout"]
    case Legendary => ["phd", "job", "marathon", "business", "promotion"]
  }

  /** `s.includes(w0) || s.includes(w1) || ...`. */
  function ContainsAny(s: string, words: seq<string>): (r: bool)
    ensures r <==> exists k | 0 <= k < |words| :: Contains(s, words[k])
  {
    if words == [] then false
    else Contains(s, words[0]) || ContainsAny(s, words[1..])
  }

  datatype Evaluation = Evaluation(tier: Tier, explanation: string)

  /** `mockEvaluate(description)`: the first tier, from Legendary down, one of whose keywords the lower-cased text contains. */
  function MockEvaluate(description: string): Evaluation {
    var desc := ToLower(description);
    if ContainsAny(desc, Keywords(Legendary)) then Evaluation(Legendary, "Major life achievement!")
    else if ContainsAny(desc, Keywords(BustingChops)) then Evaluation(BustingChops, "Significant effort and accomplishment!")
    else if ContainsAny(desc, Keywords(StrongWork)) then Evaluation(StrongWork, "Good productive work!")
    else Evaluation(Common, "Basic task completed.")
  }

  /**
   * The mock grade is the highest-ranked tier any of whose keywords occurs
   * in the lower-cased description, and Common when none does.
   */
  lemma MockEvaluateHighest(description: string)
    ensures var r := MockEvaluate(description);
      var desc := ToLower(description);
      && (forall t :: ContainsAny(desc, Keywords(t)) ==> Rank(t) <= Rank(r.tier))
      && (r.tier == Common || ContainsAny(desc, Keywords(r.tier)))
  {
    var desc := ToLower(description);
    forall t | ContainsAny(desc, Keywords(t))
      ensures Rank(t) <= Rank(MockEvaluate(description).tier)
    {
      match t
      case Common =>
      case StrongWork =>
      case BustingChops =>
      case Legendary =>
    }
  }

  /** The mock grade ignores case: a description and its lower-cased form grade alike. */
  lemma MockEvaluateIgnoresCase(description: string)
    ensures MockEvaluate(ToLower(description)) == MockEvaluate(description)
  {
    ToLowerIdempotent(description);
  }

  // ----- The tier-marker parser -----

  /**
   * The parser of `/api/evaluate-task`: the first marker present, from
   * LEGENDARY: down to COMMON:, gives the tier, and the trimmed text after
   * its first occurrence (up to its next one) the explanation; without any
   * marker the tier is Common and the explanation the whole reply.
   */
  function ParseReply(response: string): Evaluation {
    if Contains(response, Marker(Legendary)) then Picked(response, Legendary)
    else if Contains(response, Marker(BustingChops)) then Picked(response, BustingChops)
    else if Contains(response, Marker(StrongWork)) then Picked(response, StrongWork)
    else if Contains(response, Marker(Common)) then Picked(response, Common)
    else Evaluation(Common, response)
  }

  /** Tier `t`, explained by `response.split(marker)[1].trim()`. */
  function Picked(response: string, t: Tier): Evaluation
    requires Contains(response, Marker(t))
  {
    Evaluation(t, Trim(SecondPiece(response, Marker(t))))
  }

  /**
   * The parsed tier is that of the highest-ranked marker anywhere in the
   * reply, wherever it stands; with no marker at all it is Common and the
   * explanation is the reply unchanged.
   */
  lemma ParseReplyHighest(response: string)
    ensures var r := ParseReply(response);
      && (forall t :: Contains(response, Marker(t)) ==> Rank(t) <= Rank(r.tier))
      && (Contains(response, Marker(r.tier)) || (forall t :: !Contains(response, Marker(t))))
      && ((forall t :: !Contains(response, Marker(t))) ==> r == Evaluation(Common, response))
  {
    var r := ParseReply(response);
    forall t | Contains(response, Marker(t))
      ensures Rank(t) <= Rank(r.tier)
    {
      match t
      case Common =>
      case StrongWork =>
      case BustingChops =>
      case Legendary =>
    }
    if !Contains(response, Marker(r.tier)) {
      forall t
        ensures !Contains(response, Marker(t))
      {
        match t
        case Common =>
        case StrongWork =>
        case BustingChops =>
        case Legendary =>
      }
    }
  }

  /** The trimmed text after the first occurrence of `m`, up to the next one, does not contain `m`. */
  lemma PieceLacksMarker(response: string, m: string)
    requires |m| > 0 && Contains(response, m)
    ensures !Contains(Trim(SecondPiece(response, m)), m)
  {
    TrimmedSliceLacks(response, m, IndexOf(response, m, 0) + |m|, SecondPiece(response, m));
  }

  /** With a marker found, the reply is picked by a marker it contains. */
  lemma ParseReplyPicks(response: string)
    requires exists t :: Contains(response, Marker(t))
    ensures var r := ParseReply(response);
      Contains(response, Marker(r.tier)) && r == Picked(response, r.tier)
  {
    var t :| Contains(response, Marker(t));
    match t
    case Common =>
    case StrongWork =>
    case BustingChops =>
    case Legendary =>
  }

  /**
   * With a marker found, the explanation is the trimmed text between its
   * first occurrence and the next, with no whitespace at either end, and it
   * never contains that marker.
   */
  lemma ParseReplyExplanation(response: string)
    requires exists t :: Contains(response, Marker(t))
    ensures var r := ParseReply(response);
      var m := Marker(r.tier);
      && Contains(response, m)
      && r.explanation == Trim(SecondPiece(response, m))
      && !Contains(r.explanation, m)
      && (r.explanation == [] || (!IsSpace(r.explanation[0]) && !IsSpace(r.explanation[|r.explanation| - 1])))
  {
    ParseReplyPicks(response);
    var r := ParseReply(response);
    PieceLacksMarker(response, Marker(r.tier));
  }

  // ----- The endpoints -----

  /** The JSON `/api/evaluate-task` answers with. */
  datatype Reply = Reply(tier: string, xp: int, color: string, explanation: string, description: string)

  /** An error answer: its HTTP status and message. */
  datatype HttpError = HttpError(status: int, message: string)

  /**
   * `/api/evaluate-task`: a missing or empty description is a 400; in demo
   * mode the keyword grade is used, otherwise the parsed model reply.  The
   * source fixes demo mode off with a constant; it is a parameter here.
   */
  function EvaluateTask(description: string, demoMode: bool, modelReply: string): Result<Reply, HttpError> {
    if description == [] then Err(HttpError(400, "Task description is required"))
    else
      var e := if demoMode then MockEvaluate(description) else ParseReply(modelReply);
      var data := XpTier(e.tier);
      Ok(Reply(data.name, data.xp, data.color, e.explanation, description))
  }

  /**
   * A missing description is refused with 400 and nothing else is; every
   * answer's XP is one of 10, 25, 50 and 150, and its name, XP and colour
   * are one tier's entry; the description is echoed back.
   */
  lemma EvaluateTaskReply(description: string, demoMode: bool, modelReply: string)
    ensures var r := EvaluateTask(description, demoMode, modelReply);
      && (description == [] <==> r.Err?)
      && (r.Err? ==> r.error.status == 400)
      && (r.Ok? ==>
            && r.value.xp in {10, 25, 50, 150}
            && (exists t :: XpTier(t) == TierData(r.value.tier, r.value.xp, r.value.color))
            && r.value.description == description)
  {
    var r := EvaluateTask(description, demoMode, modelReply);
    if r.Ok? {
      var e := if demoMode then MockEvaluate(description) else ParseReply(modelReply);
      assert XpTier(e.tier) == TierData(r.value.tier, r.value.xp, r.value.color);
    }
  }

  /** `/api/generate-verification`: a missing description is a 400, otherwise the model's trimmed text. */
  function GenerateVerification(description: string, modelText: string): (r: Result<string, HttpError>)
    ensures description == [] <==> r.Err?
    ensures r.Err? ==> r.error.status == 400
    ensures r.Ok? ==> r.value == [] || (!IsSpace(r.value[0]) && !IsSpace(r.value[|r.value| - 1]))
  {
    if description == [] then Err(HttpError(400, "Task description required"))
    else Ok(Trim(modelText))
  }
}
