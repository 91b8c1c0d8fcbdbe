/** The manual tool-change controller of `MachinekitManualToolChange.py`:
    when the HAL component asks for a tool, the user is prompted to insert
    it and either confirms the change or aborts the task. The user's answer
    is an input; the outcome is the prompt shown, if any, and the one call
    the controller makes. */
module ToolChange {
  import opened Util
  import opened Commands
  import opened JobSync
  import opened Services

  /** What the controller reads of a tool-change message. */
  datatype ToolMessage = ToolMessage(changeTool: bool, toolNumber: int, toolChanged: bool)

  /** The one call `changed` makes, if any: `toolChanged(halrcmd, done)` on
      the HAL service, or a task abort on the command service. */
  datatype Action = ToolChanged(done: bool) | Send(call: Call) | NoAction

  datatype Outcome = Outcome(prompt: Option<string>, action: Action)

  /** The first controller of `tcs` for tool `nr`. */
  function FirstWithNumber(tcs: seq<ToolController>, nr: int): (r: Option<ToolController>)
    ensures r.Some? ==> exists k :: && 0 <= k < |tcs| && tcs[k] == r.value && r.value.toolNumber == nr
                                   && forall j :: 0 <= j < k ==> tcs[j].toolNumber != nr
    ensures r.None? ==> forall j :: 0 <= j < |tcs| ==> tcs[j].toolNumber != nr
  {
    if tcs == [] then None
    else if tcs[0].toolNumber == nr then Some(tcs[0])
    else
      var r := FirstWithNumber(tcs[1..], nr);
      assert forall j :: 1 <= j < |tcs| ==> tcs[j] == tcs[1..][j - 1];
      r
  }

  /** `getTC(nr)`: the first tool controller of the bound job for tool
      `nr`; none without a job or without such a controller. */
  function GetTC(job: Option<Job>, nr: int): (r: Option<ToolController>)
    ensures r.Some? <==> job.Some? && exists k :: 0 <= k < |job.value.toolControllers| && job.value.toolControllers[k].toolNumber == nr
    ensures r.Some? ==> r.value.toolNumber == nr && r.value in job.value.toolControllers
  {
    if job.None? then None else FirstWithNumber(job.value.toolControllers, nr)
  }

  /** The lines of the prompt for tool `nr`: the tool and, when the job has
      a controller for it, the controller's label. */
  function PromptLines(tc: Option<ToolController>, nr: int): seq<string> {
    if tc.Some? then
      ["Insert tool #" + IntToString(tc.value.toolNumber), "<i>\"" + tc.value.userLabel + "\"</i>"]
    else ["Insert tool #" + IntToString(nr)]
  }

  function Prompt(lines: seq<string>): string {
    "<div align='center'>" + Join(lines, "<br/>") + "</div>"
  }

  /** `changed(service, msg)`: `answerOk` is whether the user pressed OK. */
  function Changed(msg: ToolMessage, job: Option<Job>, answerOk: bool): Outcome {
    if msg.changeTool then
      if msg.toolNumber == 0 then Outcome(None, ToolChanged(true))
      else
        var p := Prompt(PromptLines(GetTC(job, msg.toolNumber), msg.toolNumber));
        if answerOk then Outcome(Some(p), ToolChanged(true))
        else Outcome(Some(p), Send(SendCommand(TaskAbort)))
    else if msg.toolChanged then Outcome(None, ToolChanged(false))
    else Outcome(None, NoAction)
  }

  /** The decisions of `changed`: tool 0 is confirmed without asking; any
      other tool is asked for, and OK confirms it while Abort sends exactly
      one task abort and confirms nothing; without a change request a set
      `toolChanged` is reset; otherwise nothing happens. */
  lemma ChangedDecisions(msg: ToolMessage, job: Option<Job>, answerOk: bool)
    ensures var o := Changed(msg, job, answerOk);
      && (msg.changeTool && msg.toolNumber == 0 ==> o == Outcome(None, ToolChanged(true)))
      && (msg.changeTool && msg.toolNumber != 0 ==> o.prompt.Some?)
      && (msg.changeTool && msg.toolNumber != 0 && answerOk ==> o.action == ToolChanged(true))
      && (msg.changeTool && msg.toolNumber != 0 && !answerOk ==> o.action == Send(SendCommand(TaskAbort)))
      && (!msg.changeTool && msg.toolChanged ==> o == Outcome(None, ToolChanged(false)))
      && (!msg.changeTool && !msg.toolChanged ==> o == Outcome(None, NoAction))
      && (o.action.ToolChanged? && !o.action.done <==> !msg.changeTool && msg.toolChanged)
  {
  }

  /** The prompt always names the requested tool first, whether or not the
      job has a controller for it; the controller's label follows when it
      does. */
  lemma PromptNamesTool(msg: ToolMessage, job: Option<Job>, answerOk: bool)
    requires msg.changeTool && msg.toolNumber != 0
    ensures var p := Changed(msg, job, answerOk).prompt.value;
      var tc := GetTC(job, msg.toolNumber);
      var first := "Insert tool #" + IntToString(msg.toolNumber);
      && p == Prompt([first] + (if tc.Some? then ["<i>\"" + tc.value.userLabel + "\"</i>"] else []))
      && StartsWith(p, "<div align='center'>" + first)
  {
    var tc := GetTC(job, msg.toolNumber);
    var lines := PromptLines(tc, msg.toolNumber);
    var rest := if tc.Some? then "<br/>" + lines[1] else "";
    if tc.Some? {
      assert lines[1..] == [lines[1]];
    }
    assert Join(lines, "<br/>") == lines[0] + rest;
    StartsWithConcat("<div align='center'>", lines[0], rest + "</div>");
  }

  /** `isConnected()`: both HAL services are present. */
  predicate IsConnected(m: map<string, Option<Service>>) {
    Live(m, "halrcomp") && Live(m, "halrcmd")
  }

  /** After a pass over the categories the controller is connected exactly
      when the instance advertises both HAL endpoints. */
  lemma ConnectedAfterPass(c: Conn, eps: map<string, Endpoint>, topics: seq<string>)
    requires Valid(c) && c.service.Keys == set s | s in Categories
    ensures forall k :: k in Categories ==> k in c.service
    ensures IsConnected(Reconcile(c, Categories, eps, topics).0.service) <==> "halrcomp" in eps && "halrcmd" in eps
  {
    CategoryFacts();
    ReconcileLive(c, Categories, eps, topics);
  }
}
