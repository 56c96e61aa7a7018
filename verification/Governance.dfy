/** The direct governance response and its acceptance. */
module Governance {
  import opened RuntimeContract

  type DispatchId = string

  datatype Json =
    | JsonNull
    | JsonBool(b: bool)
    | JsonNumber(n: int)
    | JsonString(s: string)
    | JsonArray(items: seq<Json>)
    | JsonObject(fields: map<string, Json>)

  datatype Verdict = Allow | Constrain | RequireApproval | Block | Halt

  datatype Rejection =
    | Missing | Malformed | UnknownVerdict | MismatchedActivity | Stale | Synthetic | Fallback | ConflictingAction
    | FailedGuardrails | InvalidConstraints | UnsupportedConstraint | Remediation | UnsupportedField | Unauthoritative

  datatype GovernanceOutcome =
    | NotEvaluated
    | Unavailable
    | Rejected(reason: Rejection)
    | Authoritative(verdict: Verdict, response: Json)

  const ALLOWED_FIELDS := {"activity_id", "verdict", "action", "authoritative", "synthetic", "fallback_used",
                           "guardrails_passed", "stale", "constraints", "remediation", "patch", "replacement",
                           "transformation"}
  const REWRITING_FIELDS := {"remediation", "patch", "replacement", "transformation"}

  function VerdictOf(text: string): Option<Verdict> {
    match text
    case "ALLOW" => Some(Allow)
    case "CONSTRAIN" => Some(Constrain)
    case "REQUIRE_APPROVAL" => Some(RequireApproval)
    case "BLOCK" => Some(Block)
    case "HALT" => Some(Halt)
    case _ => None
  }

  /** The field is absent or the literal false. */
  predicate NotRaised(fields: map<string, Json>, name: string) {
    name in fields ==> fields[name] == JsonBool(false)
  }

  /** The field is present and the given value. */
  predicate Says(fields: map<string, Json>, name: string, value: Json) {
    name in fields && fields[name] == value
  }

  predicate NoConstraints(fields: map<string, Json>) {
    "constraints" in fields ==>
      fields["constraints"] == JsonNull || fields["constraints"] == JsonArray([]) ||
          fields["constraints"] == JsonObject(map[])
  }

  /** `validate_governance_response`: the first failed check names the rejection. */
  function ValidateResponse(id: DispatchId, response: Json): Result<Verdict, Rejection> {
    if response.JsonNull? then Failure(Missing)
    else if !response.JsonObject? then Failure(Malformed)
    else
      var fields := response.fields;
      if !(fields.Keys <= ALLOWED_FIELDS) then Failure(UnsupportedField)
      else if fields.Keys * REWRITING_FIELDS != {} then Failure(Remediation)
      else if !Says(fields, "activity_id", JsonString(id)) then Failure(MismatchedActivity)
      else if !Says(fields, "authoritative", JsonBool(true)) then Failure(Unauthoritative)
      else if !NotRaised(fields, "synthetic") then Failure(Synthetic)
      else if !NotRaised(fields, "fallback_used") then Failure(Fallback)
      else if !NotRaised(fields, "stale") then Failure(Stale)
      else if !Says(fields, "guardrails_passed", JsonBool(true)) then Failure(FailedGuardrails)
      else if "verdict" !in fields || !fields["verdict"].JsonString? then Failure(Malformed)
      else
        var verdict := VerdictOf(fields["verdict"].s);
        if verdict.None? then Failure(UnknownVerdict)
        else if "action" in fields && fields["action"] != fields["verdict"] then Failure(ConflictingAction)
        else ValidateConstraints(fields, verdict.value)
  }

  function ValidateConstraints(fields: map<string, Json>, verdict: Verdict): Result<Verdict, Rejection> {
    if "constraints" !in fields then Success(verdict)
    else match fields["constraints"]
      case JsonNull => Success(verdict)
      case JsonArray(items) => if items == [] then Success(verdict) else Failure(UnsupportedConstraint)
      case JsonObject(entries) => if entries == map[] then Success(verdict) else Failure(UnsupportedConstraint)
      case _ => Failure(InvalidConstraints)
  }

  /** A response that authorises `verdict` for this very activity and asks for nothing else. */
  predicate Authorizes(id: DispatchId, response: Json, verdict: Verdict) {
    && response.JsonObject?
    && var f := response.fields;
      && f.Keys <= ALLOWED_FIELDS - REWRITING_FIELDS
      && Says(f, "activity_id", JsonString(id))
      && Says(f, "authoritative", JsonBool(true)) && Says(f, "guardrails_passed", JsonBool(true))
      && NotRaised(f, "synthetic") && NotRaised(f, "fallback_used") && NotRaised(f, "stale")
      && "verdict" in f && f["verdict"].JsonString? && VerdictOf(f["verdict"].s) == Some(verdict)
      && ("action" in f ==> f["action"] == f["verdict"])
      && NoConstraints(f)
  }

  /** A response is accepted exactly when it authorises, and then for exactly that verdict. */
  lemma AcceptedIffAuthorizes(id: DispatchId, response: Json, verdict: Verdict)
    ensures ValidateResponse(id, response) == Success(verdict) <==> Authorizes(id, response, verdict)
  {
    if response.JsonObject? {
      var f := response.fields;
      assert f.Keys <= ALLOWED_FIELDS - REWRITING_FIELDS <==>
             f.Keys <= ALLOWED_FIELDS && f.Keys * REWRITING_FIELDS == {} by {
        assert forall k :: k in f.Keys && k in REWRITING_FIELDS ==> k in f.Keys * REWRITING_FIELDS;
      }
    }
  }

  /** One response never authorises two activities, nor two verdicts for one. */
  lemma AuthorizationIsSpecific(response: Json, id: DispatchId, verdict: Verdict, id': DispatchId, verdict': Verdict)
    requires ValidateResponse(id, response) == Success(verdict) && ValidateResponse(id', response) == Success(verdict')
    ensures id == id' && verdict == verdict'
  {
    AcceptedIffAuthorizes(id, response, verdict);
    AcceptedIffAuthorizes(id', response, verdict');
  }

  /** An accepted response raises none of the three warnings: each is absent or the literal false. */
  lemma AcceptedWithoutWarnings(id: DispatchId, response: Json, verdict: Verdict, name: string)
    requires ValidateResponse(id, response) == Success(verdict)
    requires name == "synthetic" || name == "fallback_used" || name == "stale"
    ensures response.JsonObject? && (name !in response.fields || response.fields[name] == JsonBool(false))
  {
    AcceptedIffAuthorizes(id, response, verdict);
  }

  function VerdictText(v: Verdict): string {
    match v
    case Allow => "ALLOW"
    case Constrain => "CONSTRAIN"
    case RequireApproval => "REQUIRE_APPROVAL"
    case Block => "BLOCK"
    case Halt => "HALT"
  }

  /** Each verdict has one name. */
  lemma VerdictRoundTrip(v: Verdict, text: string)
    ensures VerdictOf(text) == Some(v) <==> text == VerdictText(v)
  {
  }

  /** The flaws a response may have, in the order in which they are looked for. */
  ghost predicate Flaw(id: DispatchId, response: Json, k: nat) {
    if !response.JsonObject? then k == (if response.JsonNull? then 0 else 1)
    else
      var f := response.fields;
      match k
      case 2 => exists name :: name in f && name !in ALLOWED_FIELDS
      case 3 => exists name :: name in f && name in REWRITING_FIELDS
      case 4 => !Says(f, "activity_id", JsonString(id))
      case 5 => !Says(f, "authoritative", JsonBool(true))
      case 6 => !NotRaised(f, "synthetic")
      case 7 => !NotRaised(f, "fallback_used")
      case 8 => !NotRaised(f, "stale")
      case 9 => !Says(f, "guardrails_passed", JsonBool(true))
      case 10 => !("verdict" in f && f["verdict"].JsonString?)
      case 11 => "verdict" in f && f["verdict"].JsonString? && VerdictOf(f["verdict"].s).None?
      case 12 => "action" in f && "verdict" in f && f["action"] != f["verdict"]
      case 13 => !NoConstraints(f) && (f["constraints"].JsonArray? || f["constraints"].JsonObject?)
      case 14 => !NoConstraints(f) && !f["constraints"].JsonArray? && !f["constraints"].JsonObject?
      case _ => false
  }

  /** What each flaw is called. */
  const REASONS := [Missing, Malformed, UnsupportedField, Remediation, MismatchedActivity, Unauthoritative, Synthetic,
                    Fallback, Stale, FailedGuardrails, Malformed, UnknownVerdict, ConflictingAction,
                    UnsupportedConstraint, InvalidConstraints]

  lemma FieldFlaws(fields: map<string, Json>)
    ensures fields.Keys <= ALLOWED_FIELDS <==> !exists name :: name in fields && name !in ALLOWED_FIELDS
    ensures fields.Keys * REWRITING_FIELDS != {} <==> exists name :: name in fields && name in REWRITING_FIELDS
  {
    if name :| name in fields && name in REWRITING_FIELDS {
      assert name in fields.Keys * REWRITING_FIELDS;
    }
    if name :| name in fields.Keys * REWRITING_FIELDS {
      assert name in fields && name in REWRITING_FIELDS;
    }
  }

  /** A response is rejected for its first flaw. */
  lemma RejectedForFirstFlaw(id: DispatchId, response: Json, k: nat)
    requires Flaw(id, response, k) && forall j: nat :: j < k ==> !Flaw(id, response, j)
    ensures k < |REASONS| && ValidateResponse(id, response) == Failure(REASONS[k])
  {
    if response.JsonObject? {
      FieldFlaws(response.fields);
      assert !Flaw(id, response, 2) || k <= 2;
      assert !Flaw(id, response, 3) || k <= 3;
      assert !Flaw(id, response, 4) || k <= 4;
      assert !Flaw(id, response, 5) || k <= 5;
      assert !Flaw(id, response, 6) || k <= 6;
      assert !Flaw(id, response, 7) || k <= 7;
      assert !Flaw(id, response, 8) || k <= 8;
      assert !Flaw(id, response, 9) || k <= 9;
      assert !Flaw(id, response, 10) || k <= 10;
      assert !Flaw(id, response, 11) || k <= 11;
      assert !Flaw(id, response, 12) || k <= 12;
    }
  }

  /** Some response is accepted for any id and verdict: the four mandatory fields and nothing else. */
  lemma PlainResponse(id: DispatchId, v: Verdict) returns (response: Json)
    ensures ValidateResponse(id, response) == Success(v)
  {
    response := JsonObject(map["activity_id" := JsonString(id), "authoritative" := JsonBool(true),
                               "guardrails_passed" := JsonBool(true), "verdict" := JsonString(VerdictText(v))]);
    VerdictRoundTrip(v, VerdictText(v));
    AcceptedIffAuthorizes(id, response, v);
  }
}
