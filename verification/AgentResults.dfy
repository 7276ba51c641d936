/** What goes into an agent run and what comes out of it. */
module AgentResults {
  import opened Options

  datatype ArtifactType =
    | UserRequest | ExplorationReport | ImplementationPlan | ChangeSummary
    | TestResult | ErrorReport | ReviewReport | Generic

  datatype Artifact = Artifact(kind: ArtifactType, producer: string, content: string)

  datatype Constraints = Constraints(maxSteps: Option<nat>, readOnly: bool)

  datatype Task = Task(id: string, objective: string, workingDirectory: string, inputs: seq<Artifact>,
                       constraints: Constraints)

  /** The text has a character that is no blank. */
  predicate HasText(s: string) {
    exists c | c in s :: c !in " \t\r\n"
  }

  /** Some character is neither a space nor a tab nor a line end. */
  ghost predicate Visible(s: string) {
    exists i :: 0 <= i < |s| && s[i] != ' ' && s[i] != '\t' && s[i] != '\r' && s[i] != '\n'
  }

  lemma HasTextExactly(s: string)
    ensures HasText(s) <==> Visible(s)
  {
    if HasText(s) {
      var c :| c in s && c !in " \t\r\n";
      var i :| 0 <= i < |s| && s[i] == c;
      assert " \t\r\n"[0] == ' ' && " \t\r\n"[1] == '\t' && " \t\r\n"[2] == '\r' && " \t\r\n"[3] == '\n';
    }
    if Visible(s) {
      var i :| 0 <= i < |s| && s[i] != ' ' && s[i] != '\t' && s[i] != '\r' && s[i] != '\n';
      assert s[i] in s;
    }
  }

  predicate ValidTask(task: Task) {
    && HasText(task.id) && HasText(task.objective) && task.workingDirectory != ""
    && (task.constraints.maxSteps.Some? ==> task.constraints.maxSteps.value > 0)
  }

  lemma ValidTaskExactly(task: Task)
    ensures ValidTask(task) <==>
              && Visible(task.id) && Visible(task.objective) && task.workingDirectory != ""
              && (task.constraints.maxSteps.Some? ==> task.constraints.maxSteps.value > 0)
  {
    hide HasText, Visible;
    HasTextExactly(task.id);
    HasTextExactly(task.objective);
  }

  datatype AgentStatus = Completed | Failed | Cancelled | NeedsInput | NeedsConfirmation

  datatype AgentError = AgentError(code: string, message: string)

  datatype AgentResult = AgentResult(status: AgentStatus, summary: string, artifacts: seq<Artifact>,
                                     error: Option<AgentError>)

  function FailedWith(code: string, message: string): AgentResult {
    AgentResult(Failed, message, [], Some(AgentError(code, message)))
  }

  predicate HasCode(r: AgentResult, code: string) {
    r.error.Some? && r.error.value.code == code
  }
}
