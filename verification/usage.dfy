/** The Usage value object: token counts and model name reported for one completion. */
module UsageValue {
  import opened Wrappers
  import opened Decimal

  /** Token counts are JavaScript numbers, so they are reals here; the schema
      decides whether they are whole and non-negative. */
  datatype Usage = Usage(promptTokens: real, completionTokens: real, modelName: string)

  /** The schema fields that can fail validation, in the order zod checks them. */
  datatype UsageField = PromptTokens | CompletionTokens | ModelName

  predicate ValidTokenCount(x: real) {
    IsInt(x) && x >= 0.0
  }

  /** `UsageSchema`: both counts whole and non-negative, model name non-empty. */
  predicate ValidUsage(u: Usage) {
    ValidTokenCount(u.promptTokens) && ValidTokenCount(u.completionTokens) && |u.modelName| >= 1
  }

  /** The fields of `u` that the schema rejects. */
  function UsageIssues(u: Usage): (issues: seq<UsageField>)
    ensures PromptTokens in issues <==> !ValidTokenCount(u.promptTokens)
    ensures CompletionTokens in issues <==> !ValidTokenCount(u.completionTokens)
    ensures ModelName in issues <==> |u.modelName| == 0
    ensures |issues| == 0 <==> ValidUsage(u)
  {
    (if ValidTokenCount(u.promptTokens) then [] else [PromptTokens])
    + (if ValidTokenCount(u.completionTokens) then [] else [CompletionTokens])
    + (if |u.modelName| >= 1 then [] else [ModelName])
  }

  /** `createUsage`: parses the data against the schema and returns it unchanged,
      or fails listing every rejected field. */
  function CreateUsage(u: Usage): (r: Result<Usage, seq<UsageField>>)
    ensures r.Success? <==> ValidUsage(u)
    ensures r.Success? ==> r.value == u
    ensures r.Failure? ==> (PromptTokens in r.error <==> !ValidTokenCount(u.promptTokens))
    ensures r.Failure? ==> (CompletionTokens in r.error <==> !ValidTokenCount(u.completionTokens))
    ensures r.Failure? ==> (ModelName in r.error <==> |u.modelName| == 0)
  {
    var issues := UsageIssues(u);
    if |issues| == 0 then Success(u) else Failure(issues)
  }
}
