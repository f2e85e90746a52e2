/** One concrete order, catalogue and device reply for the runs of OrderRuns: their hypotheses can be met. */
module OrderExample {
  import opened Prelude
  import opened CommandCaching
  import opened Commands
  import opened Orders
  import opened Saga
  import opened OrderProtocol
  import opened OrderSafety
  import opened OrderOutcomes
  import opened OrderDelivery
  import opened OrderRuns

  /** A manufacturer-wide command that sends its own key. */
  function Echo(key: string): CommandRow {
    CommandRow(0, 0, None, key, None, true, [Text(key)], None, 1, false)
  }

  /** Three steps; the first has no rollback command. */
  function Steps(): Template {
    Template(true, 0, None, [], [StepDef("a", "A"), StepDef("b", "B"), StepDef("c", "C")], map["b" := "UB", "c" := "UC"], map[])
  }

  function Forward(): Sight {
    Sight(None, map[0 := [Echo("A")], 1 := [Echo("B")], 2 := [Echo("C")]])
  }

  function Backward(): Sight {
    Sight(None, map[2 := [Echo("UB")]])
  }

  function Before(): State {
    State(map[1 := Order("key", None, Pending, 0, 0, map[], None, None, 0)], map[], map[5 := Onu("U", true)],
          map[PendingKey(0, 0, "S") := PendingOnu(Detected, None, None)], map[], map[],
          map[1 := Fresh], map[], [], [], {}, [], 1)
  }

  function Plain(): Ctx {
    Ctx(Steps(), Forward(), map[], [Command("A", "A", 1), Command("B", "B", 1), Command("C", "C", 1)])
  }

  /** The third step fails. */
  function ThirdFails(): seq<StepResult> {
    [StepResult("A", None, true), StepResult("B", None, true), StepResult("C", None, false)]
  }

  lemma EchoAnswers(key: string)
    ensures IsListed([Echo(key)], 0, key) && Query([Echo(key)], None, None) == Some(Build(Echo(key)))
  {
    var rows := [Echo(key)];
    assert Window(rows) == rows && Serves(rows[0], None, None);
    assert FirstServing(rows, None, None) == Some(rows[0]);
  }

  lemma EchoRenders(key: string, vars: Variables)
    ensures Render([Text(key)], vars) == Rendered(key)
  {
    assert [Text(key)][1..] == [];
    assert Render([], vars) == Rendered("");
    assert key + "" == key;
  }

  lemma Lookups()
    ensures PlanLookups(Steps(), Forward()) == [Some(Build(Echo("A"))), Some(Build(Echo("B"))), Some(Build(Echo("C")))]
  {
    EchoAnswers("A");
    EchoAnswers("B");
    EchoAnswers("C");
  }

  lemma Plans()
    ensures BuildPlan(Steps().steps, PlanLookups(Steps(), Forward()), map[]) == Plan(Plain().commands)
  {
    Lookups();
    EchoesPlan(Steps().steps, PlanLookups(Steps(), Forward()), Plain().commands);
  }

  /** Steps that resolve to their echoes are planned as their keys. */
  lemma {:induction false} EchoesPlan(steps: seq<StepDef>, lookups: seq<Option<Resolved>>, commands: seq<Command>)
    requires |steps| == |lookups| == |commands|
    requires forall i | 0 <= i < |steps| ::
               lookups[i] == EchoOf(steps[i]) && commands[i] == Command(steps[i].commandKey, steps[i].commandKey, 1)
    ensures BuildPlan(steps, lookups, map[]) == Plan(commands)
  {
    if steps != [] {
      var n := |steps| - 1;
      EchoesPlan(steps[..n], lookups[..n], commands[..n]);
      EchoPlans(steps[n].commandKey);
      BuildPlanSnoc(steps[..n], steps[n], lookups[..n], lookups[n], map[]);
      assert steps == steps[..n] + [steps[n]] && lookups == lookups[..n] + [lookups[n]] && commands == commands[..n] + [commands[n]];
    }
  }

  function EchoOf(step: StepDef): Option<Resolved> {
    Some(Build(Echo(step.commandKey)))
  }

  lemma EchoPlans(key: string)
    ensures PlanStep(key, Some(Build(Echo(key))), map[]) == Plan([Command(key, key, 1)])
  {
    EchoRenders(key, map[]);
  }

  lemma ExampleIsPlannable()
    ensures Plannable(Before(), 1, Readout(Some(Steps()), Forward(), true), Plain())
  {
    Plans();
    assert Context(map[], map[]) == map[];
  }

  lemma ExampleKeys()
    ensures KeysOf(Plain()) == map[1 := "a", 2 := "b", 3 := "c"]
  {
    StepKeysDomain(Steps().steps);
  }

  lemma ExampleRollsBack()
    ensures Verdicts(Plain(), ThirdFails()).needsRollback
    ensures forall i :: ToUndo(Plain(), ThirdFails(), i) <==> i == 2
    ensures !AllMapped(ThirdFails(), KeysOf(Plain()), Steps().rollbackMap)
  {
    ExampleKeys();
    VerdictsMean(Plain(), ThirdFails());
    assert KeyAt(KeysOf(Plain()), 3) == "c" && !ThirdFails()[2].success;
    assert !Mapped(KeysOf(Plain()), Steps().rollbackMap, 1) && ThirdFails()[0].success;
  }

  lemma ExampleResolves()
    ensures Resolvable(Steps(), Backward(), Plain(), 2, map[])
  {
    ExampleKeys();
    EchoAnswers("UB");
    EchoRenders("UB", map[]);
    assert RollbackKey(KeysOf(Plain()), Steps().rollbackMap, 2) == "UB";
  }

  lemma ExampleUndo() returns (undo: Undo)
    ensures undo.template == Steps() && undo.sight == Backward() && undo.vars == map[]
    ensures CanUndo(Before(), 1, Plain(), ThirdFails(), Steps(), Backward(), undo)
    ensures |undo.commands| == 1 && undo.commands[0].text == "UB"
  {
    undo := SendsUndo(Plain(), ThirdFails(), Steps(), Backward(), map[]);
    assert Context(map[], map[]) == map[];
    ExampleText(undo);
  }

  lemma SendsUndo(ctx: Ctx, results: seq<StepResult>, t: Template, sight: Sight, vars: Variables) returns (undo: Undo)
    requires ctx == Plain() && results == ThirdFails() && t == Steps() && sight == Backward() && vars == map[]
    ensures undo == Undo(undo.commands, t, sight, vars) && UndoPlan(ctx, results, t, sight, vars) == Ready(undo.commands)
    ensures undo.commands != []
  {
    ExampleRollsBack();
    ExampleResolves();
    assert ToUndo(ctx, results, 2);
    SendableIff(Compensating(1, ctx, results), t, sight, vars);
    undo := Undo(UndoPlan(ctx, results, t, sight, vars).commands, t, sight, vars);
  }

  lemma OnlyEcho(c: Command, key: CommandKey)
    requires RendersRow(c, Backward(), 2, key, map[])
    ensures c.text == "UB"
  {
    var rows := [Echo("UB")];
    assert Backward().listings[2] == rows && Window(rows) == rows;
    var r :| FromCatalogue(r, rows, key) && RendersAs(c, key.key, r, map[]);
    var row :| row in Window(rows) && Carries(r, row);
    RenderSpells(r.template, map[], c.text);
    assert row == Echo("UB");
    EchoRenders("UB", map[]);
  }

  lemma ExampleText(undo: Undo)
    requires undo.template == Steps() && undo.sight == Backward() && undo.vars == map[]
    requires UndoReady(Plain(), ThirdFails(), undo, Before().orders[1])
    ensures |undo.commands| == 1 && undo.commands[0].text == "UB"
  {
    ExampleRollsBack();
    var order := UndoneRenders(Plain(), ThirdFails(), undo, Before().orders[1]);
    OnlyTwo(order);
    assert order[0] == 2;
    OnlyEcho(undo.commands[0], UndoKey(Plain(), undo, 2));
  }

  lemma OnlyTwo(order: seq<nat>)
    requires (forall i :: i in order <==> i == 2) && forall a, b | 0 <= a < b < |order| :: order[a] > order[b]
    ensures order == [2]
  {
    assert 2 in order;
    var last := order[|order| - 1];
    assert order[0] in order && last in order;
  }

  lemma ExampleIsDisjoint(undo: Undo)
    requires |undo.commands| == 1 && undo.commands[0].text == "UB"
    ensures Disjoint(Plain().commands, ThirdFails(), undo.commands)
  {
    assert "UB"[0] == 'U' && "A"[0] == 'A' && "B"[0] == 'B' && "C"[0] == 'C';
  }

  lemma ExampleLeaves(undo: Undo)
    requires CanUndo(Before(), 1, Plain(), ThirdFails(), Steps(), Backward(), undo)
    requires undo.template == Steps() && undo.sight == Backward() && |undo.commands| == 1 && undo.commands[0].text == "UB"
    ensures var reply := Reply([StepResult("UB", None, true)], false);
            Ends(Run(Before(), RolledBackEvents(1, Readout(Some(Steps()), Forward(), true), ThirdFails(), undo, reply)), 1, RolledBack)
    ensures !AlwaysRestores(Plain().commands, ThirdFails(),
                            Wanted(Reverse(Positions(ThirdFails(), true)), KeysOf(Plain()), Steps().rollbackMap),
                            undo.commands, [StepResult("UB", None, true)])
  {
    ExampleIsPlannable();
    ExampleRollsBack();
    ExampleIsDisjoint(undo);
    ExampleReply(undo);
    RolledBackWithStepLeft(Before(), 1, Readout(Some(Steps()), Forward(), true), Plain(), ThirdFails(), undo,
                           Reply([StepResult("UB", None, true)], false));
  }

  lemma ExampleReply(undo: Undo)
    requires |undo.commands| == 1
    ensures |ThirdFails()| == |Plain().commands| && |[StepResult("UB", None, true)]| == |undo.commands|
    ensures AllOk([StepResult("UB", None, true)])
  {
  }

  /** A run that ends ROLLED_BACK although the first step is still on the device. */
  lemma StepLeftBehind() returns (events: seq<Event>, undo: Undo)
    ensures Start(Before()) && Ends(Run(Before(), events), 1, RolledBack)
    ensures |undo.commands| == 1
    ensures !AlwaysRestores(Plain().commands, ThirdFails(),
                            Wanted(Reverse(Positions(ThirdFails(), true)), KeysOf(Plain()), Steps().rollbackMap),
                            undo.commands, [StepResult("UB", None, true)])
  {
    ExampleIsPlannable();
    undo := ExampleUndo();
    ExampleLeaves(undo);
    events := RolledBackEvents(1, Readout(Some(Steps()), Forward(), true), ThirdFails(), undo,
                               Reply([StepResult("UB", None, true)], false));
  }

  /** A run that ends ROLLED_BACK after an empty rollback reply. */
  lemma EmptyReply() returns (events: seq<Event>)
    ensures Start(Before()) && Ends(Run(Before(), events), 1, RolledBack)
    ensures var stage := StageOf(Run(Before(), events), 1); stage.Undone? && stage.reply.results == [] && !AllReported(stage)
  {
    ExampleIsPlannable();
    ExampleRollsBack();
    var undo := ExampleUndo();
    var readout := Readout(Some(Steps()), Forward(), true);
    ShortReplyRollsBack(Before(), 1, readout, Plain(), ThirdFails(), undo, Reply([], false));
    RolledBackRun(Before(), 1, readout, Plain(), ThirdFails(), undo, Reply([], false));
    events := RolledBackEvents(1, readout, ThirdFails(), undo, Reply([], false));
  }

  /** A run that ends SUCCESS although the adapter reported none of the three commands. */
  lemma NothingReported() returns (events: seq<Event>)
    ensures Start(Before()) && Ends(Run(Before(), events), 1, Success) && StepsOf(Run(Before(), events), 1) == []
    ensures var stage := StageOf(Run(Before(), events), 1); stage.Sent? && |stage.ctx.commands| == 3 && !AllCommandsReported(stage)
  {
    var readout := Readout(Some(Steps()), Forward(), true);
    ExampleIsPlannable();
    ShortReplySucceeds(Before(), 1, readout, Plain(), []);
    events := CleanEvents(1, readout, []);
  }

  /** A run that inserts a retry while its source is RUNNING. */
  lemma RetryWhileRunning() returns (events: seq<Event>)
    ensures Start(Before()) && Ends(Run(Before(), events), 1, Running)
    ensures var t := Run(Before(), events); 2 in t.orders && t.orders[2].retryOf == Some(1)
  {
    var readout := Readout(Some(Steps()), Forward(), true);
    ExampleIsPlannable();
    ExampleIsRetryable();
    RetryOfRunning(Before(), 1, readout, Plain(), 9, Retry(), None, 2);
    events := RetriedMidway(1, readout, 9, Retry(), 2);
  }

  function Retry(): Request {
    Request("other", "hash", 0, 0, "S", map[], Some(1))
  }

  lemma ExampleIsRetryable()
    ensures Retryable(Before(), 1, Retry(), None)
  {
    assert ActivePending(Before(), PendingKey(0, Retry().pon, Retry().serial));
    assert "S"[0] != "U"[0] && "other"[0] != "key"[0];
  }

  /** A run in which the loser of a race gets the untranslated error. */
  lemma RaceLost() returns (events: seq<Event>)
    ensures Start(Before())
    ensures var t := Run(Before(), events); 2 in t.sessions && t.sessions[2].at == Closed(Untranslated)
  {
    var p := Request("p", "hash", 0, 0, "U", map[], None);
    var q := Request("q", "hash", 0, 0, "U", map[], None);
    assert IsLive(Before().onus, 5, "U");
    assert "p"[0] != "q"[0] && "p"[0] != "key"[0] && "q"[0] != "key"[0];
    RaceIsUntranslated(Before(), 5, p, q, 2, 3);
    events := Race(p, q, 2, 3);
  }
}
