/** The backend's `POST /ai/prompt` handler: run the agent on the prompt,
    take the reply from the run's final output and the SQL from the last
    `generate_sql` tool item, and answer a fixed error response on any
    exception. */
module PromptApi {
  import opened Wrappers

  /** `PromptResponse`: `sql` and `viz_type` default to `""`. */
  datatype PromptResponse = PromptResponse(reply: string, sql: string := "", vizType: string := "")

  /** One of the run's `new_items`; `toolName` is `None` for items without
      a `tool_name` attribute. */
  datatype RunItem = RunItem(toolName: Option<string>, output: string)

  /** What the agent run yields: `final_output` if it has that attribute,
      `str(result)`, and `new_items` if it has that attribute. */
  datatype RunResult = RunResult(finalOutput: Option<string>, repr: string, newItems: Option<seq<RunItem>>)

  /** `Runner.run` either returns or raises. */
  datatype RunOutcome = Completed(result: RunResult) | Raised

  const ErrorReply := "Sorry, there was an error processing your request."
  const GenerateSqlTool := "generate_sql"
  const DefaultVizType := "bar"

  /** The fixed answer of the `except` branch. */
  function ErrorResponse(): (r: PromptResponse)
    ensures r.reply == ErrorReply && r.sql == "" && r.vizType == ""
  {
    PromptResponse(ErrorReply)
  }

  predicate IsGenerateSql(item: RunItem)
  {
    item.toolName == Some(GenerateSqlTool)
  }

  /** The output of the last `generate_sql` item, `""` when there is none. */
  function LastGeneratedSql(items: seq<RunItem>): string
    decreases |items|
  {
    if items == [] then ""
    else if IsGenerateSql(items[|items| - 1]) then items[|items| - 1].output
    else LastGeneratedSql(items[..|items| - 1])
  }

  /** With no `generate_sql` item the SQL is empty. */
  lemma {:induction false} NoGeneratorMeansEmptySql(items: seq<RunItem>)
    requires forall j :: 0 <= j < |items| ==> !IsGenerateSql(items[j])
    ensures LastGeneratedSql(items) == ""
    decreases |items|
  {
    if items != [] {
      NoGeneratorMeansEmptySql(items[..|items| - 1]);
    }
  }

  /** The SQL is the output of the `generate_sql` item that no later
      `generate_sql` item follows; other items never matter. */
  lemma {:induction false} LastGeneratorWins(items: seq<RunItem>, k: nat)
    requires k < |items| && IsGenerateSql(items[k])
    requires forall j :: k < j < |items| ==> !IsGenerateSql(items[j])
    ensures LastGeneratedSql(items) == items[k].output
    decreases |items|
  {
    if k < |items| - 1 {
      LastGeneratorWins(items[..|items| - 1], k);
    }
  }

  /** `result.final_output if hasattr(result, 'final_output') else str(result)`. */
  function ReplyOf(r: RunResult): (reply: string)
    ensures r.finalOutput.Some? ==> reply == r.finalOutput.value
    ensures r.finalOutput.None? ==> reply == r.repr
  {
    r.finalOutput.GetOr(r.repr)
  }

  /** `handle_prompt` once the agent run has ended with `run`. */
  method HandlePrompt(run: RunOutcome) returns (resp: PromptResponse)
    ensures run.Raised? ==> resp == ErrorResponse()
    ensures run.Completed? ==>
              && resp.reply == ReplyOf(run.result)
              && resp.sql == LastGeneratedSql(run.result.newItems.GetOr([]))
              && resp.vizType == DefaultVizType
  {
    if run.Raised? {
      return ErrorResponse();
    }
    var result := run.result;
    var sql := "";
    var reply := ReplyOf(result);
    var items := result.newItems.GetOr([]);
    var i := 0;
    while i < |items|
      invariant 0 <= i <= |items|
      invariant sql == LastGeneratedSql(items[..i])
    {
      if IsGenerateSql(items[i]) {
        sql := items[i].output;
      }
      assert items[..i + 1][..i] == items[..i];
      i := i + 1;
    }
    assert items[..i] == items;
    var vizType := DefaultVizType;
    resp := PromptResponse(reply, sql, vizType);
  }
}
