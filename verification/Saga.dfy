/** Recording the results of a plan, and compensating for them (phases 3 and 4 of provisioning_worker.py). */
module Saga {
  import opened Prelude
  import opened TtlLog
  import opened CommandCaching
  import opened Commands
  import opened Orders

  datatype StepResult = StepResult(commandSent: string, output: Option<string>, success: bool)

  datatype Phase = Validation | Execution

  datatype StepRow = StepRow(order: nat, key: string, phase: Phase, success: bool)

  type Keys = map<nat, string>

  type RollbackMap = map<string, string>

  // ---------- Phase 3 ----------

  function Decimal(n: nat): string {
    var digit := ["0123456789"[n % 10]];
    if n < 10 then digit else Decimal(n / 10) + digit
  }

  function DigitOf(c: char): int {
    c as int - '0' as int
  }

  /** The number that a string of digits stands for. */
  function NumberOf(digits: string): int {
    if digits == "" then 0 else 10 * NumberOf(digits[..|digits| - 1]) + DigitOf(digits[|digits| - 1])
  }

  /** The decimal of a number: digits only, no leading zero, and they stand for the number. */
  lemma {:induction false} DecimalMeaning(n: nat)
    ensures Decimal(n) != "" && (forall c | c in Decimal(n) :: '0' <= c <= '9') && NumberOf(Decimal(n)) == n
    ensures n > 0 ==> Decimal(n)[0] != '0'
  {
    assert forall k | 0 <= k < 10 :: DigitOf("0123456789"[k]) == k && '0' <= "0123456789"[k] <= '9';
    var digit := ["0123456789"[n % 10]];
    if n < 10 {
      assert NumberOf(digit) == 10 * NumberOf("") + DigitOf(digit[0]);
    } else {
      DecimalMeaning(n / 10);
      assert Decimal(n) == Decimal(n / 10) + digit;
      assert Decimal(n)[..|Decimal(n)| - 1] == Decimal(n / 10);
    }
  }

  /** step_key_by_order.get(i) or "__pos_i__"; an empty key counts as absent. */
  function KeyAt(keys: Keys, i: nat): string {
    if i in keys && keys[i] != "" then keys[i] else "__pos_" + Decimal(i) + "__"
  }

  function RowsFor(keys: Keys, results: seq<StepResult>): (rows: seq<StepRow>)
    ensures |rows| == |results|
  {
    if results == [] then []
    else
      var n := |results| - 1;
      RowsFor(keys, results[..n]) + [StepRow(n + 1, KeyAt(keys, n + 1), Execution, results[n].success)]
  }

  lemma {:induction false} RowsMeaning(keys: Keys, results: seq<StepResult>)
    ensures forall i | 0 <= i < |results| ::
              && RowsFor(keys, results)[i].order == i + 1 && RowsFor(keys, results)[i].phase == Execution
              && RowsFor(keys, results)[i].success == results[i].success
              && RowsFor(keys, results)[i].key == if i + 1 in keys && keys[i + 1] != "" then keys[i + 1] else "__pos_" + Decimal(i + 1) + "__"
  {
    if results != [] {
      RowsMeaning(keys, results[..|results| - 1]);
    }
  }

  lemma RowsSnoc(keys: Keys, results: seq<StepResult>, r: StepResult)
    ensures RowsFor(keys, results + [r]) ==
            RowsFor(keys, results) + [StepRow(|results| + 1, KeyAt(keys, |results| + 1), Execution, r.success)]
  {
    assert (results + [r])[..|results|] == results;
  }

  /** Positions, counted from 1, of the results with the given verdict. */
  function Positions(results: seq<StepResult>, success: bool): seq<nat> {
    if results == [] then []
    else
      var n := |results| - 1;
      Positions(results[..n], success) + (if results[n].success == success then [n + 1] else [])
  }

  lemma {:induction false} PositionsMeaning(results: seq<StepResult>, success: bool)
    ensures forall i :: i in Positions(results, success) <==> 1 <= i <= |results| && results[i - 1].success == success
    ensures forall a, b | 0 <= a < b < |Positions(results, success)| ::
              Positions(results, success)[a] < Positions(results, success)[b]
  {
    if results != [] {
      var n := |results| - 1;
      PositionsMeaning(results[..n], success);
      var front := Positions(results[..n], success);
      assert forall k | 0 <= k < n :: results[..n][k] == results[k];
      assert forall a | 0 <= a < |front| :: front[a] in front;
      assert Positions(results, success) == front + (if results[n].success == success then [n + 1] else []);
    }
  }

  datatype Outcome = Outcome(needsRollback: bool, successful: seq<nat>, status: Status)

  /** How a list of results is judged: rollback exactly when the rollback map names the key of some failed step. */
  ghost predicate Judges(outcome: Outcome, keys: Keys, rollbackMap: RollbackMap, results: seq<StepResult>) {
    && outcome.successful == Positions(results, true)
    && (outcome.needsRollback <==> exists i :: 0 <= i < |results| && !results[i].success && KeyAt(keys, i + 1) in rollbackMap)
    && (outcome.status == Success || outcome.status == Partial || outcome.status == Failed)
    && (outcome.status == Success <==> forall i | 0 <= i < |results| :: results[i].success)
    && (outcome.status == Partial <==>
          && !outcome.needsRollback
          && (exists i :: 0 <= i < |results| && !results[i].success)
          && (exists i :: 0 <= i < |results| && results[i].success))
  }

  function OutcomeOf(keys: Keys, rollbackMap: RollbackMap, results: seq<StepResult>): Outcome {
    var successful := Positions(results, true);
    var failed := FailedKeys(keys, Positions(results, false));
    if failed == [] then Outcome(false, successful, Success)
    else if exists k :: 0 <= k < |failed| && failed[k] in rollbackMap then Outcome(true, successful, Failed)
    else Outcome(false, successful, if successful != [] then Partial else Failed)
  }

  /** The computed outcome is the judgement, and there is only one. */
  lemma OutcomeJudges(keys: Keys, rollbackMap: RollbackMap, results: seq<StepResult>, other: Outcome)
    ensures Judges(other, keys, rollbackMap, results) <==> other == OutcomeOf(keys, rollbackMap, results)
  {
    PositionsEmptyIff(results, false);
    PositionsEmptyIff(results, true);
    CoveredIff(keys, rollbackMap, results);
  }

  lemma PositionsSnoc(results: seq<StepResult>, r: StepResult, success: bool)
    ensures Positions(results + [r], success) ==
            if r.success == success then Positions(results, success) + [|results| + 1] else Positions(results, success)
  {
    assert (results + [r])[..|results|] == results;
  }

  /** Keys of the failed steps, in order. */
  function FailedKeys(keys: Keys, failed: seq<nat>): (names: seq<string>)
    ensures |names| == |failed|
    ensures forall k | 0 <= k < |failed| :: names[k] == KeyAt(keys, failed[k])
  {
    seq(|failed|, k requires 0 <= k < |failed| => KeyAt(keys, failed[k]))
  }

  method AnyCovered(names: seq<string>, rollbackMap: RollbackMap) returns (covered: bool)
    ensures covered <==> exists k :: 0 <= k < |names| && names[k] in rollbackMap
  {
    for i := 0 to |names|
      invariant forall k | 0 <= k < i :: names[k] !in rollbackMap
    {
      if names[i] in rollbackMap {
        return true;
      }
    }
    return false;
  }

  lemma PositionsEmptyIff(results: seq<StepResult>, success: bool)
    ensures Positions(results, success) == [] <==> forall i | 0 <= i < |results| :: results[i].success != success
  {
    PositionsMeaning(results, success);
    var found := Positions(results, success);
    if found != [] {
      assert found[0] in found;
    }
    if i :| 0 <= i < |results| && results[i].success == success {
      assert i + 1 in found;
    }
  }

  lemma CoveredIff(keys: Keys, rollbackMap: RollbackMap, results: seq<StepResult>)
    ensures var names := FailedKeys(keys, Positions(results, false));
            (exists k :: 0 <= k < |names| && names[k] in rollbackMap) <==>
            exists i :: 0 <= i < |results| && !results[i].success && KeyAt(keys, i + 1) in rollbackMap
  {
    var failed := Positions(results, false);
    var names := FailedKeys(keys, failed);
    PositionsMeaning(results, false);
    forall k | 0 <= k < |names| && names[k] in rollbackMap
      ensures exists i :: 0 <= i < |results| && !results[i].success && KeyAt(keys, i + 1) in rollbackMap
    {
      assert failed[k] in failed;
      var i := failed[k] - 1;
      assert 0 <= i < |results| && !results[i].success && KeyAt(keys, i + 1) in rollbackMap;
    }
    forall i | 0 <= i < |results| && !results[i].success && KeyAt(keys, i + 1) in rollbackMap
      ensures exists k :: 0 <= k < |names| && names[k] in rollbackMap
    {
      assert i + 1 in failed;
      var k :| 0 <= k < |failed| && failed[k] == i + 1;
      assert names[k] in rollbackMap;
    }
  }

  method RecordSteps(keys: Keys, results: seq<StepResult>)
    returns (rows: seq<StepRow>, successful: seq<nat>, failed: seq<nat>)
    ensures rows == RowsFor(keys, results)
    ensures successful == Positions(results, true) && failed == Positions(results, false)
  {
    rows, successful, failed := [], [], [];
    for i := 0 to |results|
      invariant rows == RowsFor(keys, results[..i])
      invariant successful == Positions(results[..i], true) && failed == Positions(results[..i], false)
    {
      assert results[..i + 1] == results[..i] + [results[i]];
      RowsSnoc(keys, results[..i], results[i]);
      PositionsSnoc(results[..i], results[i], true);
      PositionsSnoc(results[..i], results[i], false);
      rows := rows + [StepRow(i + 1, KeyAt(keys, i + 1), Execution, results[i].success)];
      if results[i].success {
        successful := successful + [i + 1];
      } else {
        failed := failed + [i + 1];
      }
    }
    assert results[..|results|] == results;
  }

  method PersistResults(keys: Keys, rollbackMap: RollbackMap, results: seq<StepResult>)
    returns (rows: seq<StepRow>, outcome: Outcome)
    ensures rows == RowsFor(keys, results)
    ensures outcome == OutcomeOf(keys, rollbackMap, results) && Judges(outcome, keys, rollbackMap, results)
  {
    var successful, failed;
    rows, successful, failed := RecordSteps(keys, results);
    OutcomeJudges(keys, rollbackMap, results, OutcomeOf(keys, rollbackMap, results));
    if failed == [] {
      return rows, Outcome(false, successful, Success);
    }
    var covered := AnyCovered(FailedKeys(keys, failed), rollbackMap);
    if covered {
      return rows, Outcome(true, successful, Failed);
    }
    outcome := Outcome(false, successful, if successful != [] then Partial else Failed);
  }

  // ---------- Phase 4: the rollback plan ----------

  datatype RollbackPlan =
    | Ready(commands: seq<Command>)
    | Unresolved(missing: seq<string>)
    | Raised                              // rendering failed; the exception leaves the phase

  function Reverse(s: seq<nat>): (r: seq<nat>)
    ensures |r| == |s|
    ensures forall i | 0 <= i < |s| :: r[i] == s[|s| - 1 - i]
  {
    if s == [] then [] else Reverse(s[1..]) + [s[0]]
  }

  predicate Mapped(keys: Keys, rollbackMap: RollbackMap, i: nat) {
    i in keys && keys[i] in rollbackMap
  }

  /** The visited orders that have a rollback command, in visiting order. */
  function Wanted(orders: seq<nat>, keys: Keys, rollbackMap: RollbackMap): seq<nat> {
    if orders == [] then []
    else
      var n := |orders| - 1;
      Wanted(orders[..n], keys, rollbackMap) + (if Mapped(keys, rollbackMap, orders[n]) then [orders[n]] else [])
  }

  /** What the rollback resolution of each step order answered. */
  type Lookups = map<nat, Option<Resolved>>

  function LookupAt(lookups: Lookups, i: nat): Option<Resolved> {
    if i in lookups then lookups[i] else None
  }

  function RollbackKey(keys: Keys, rollbackMap: RollbackMap, i: nat): string {
    if Mapped(keys, rollbackMap, i) then rollbackMap[keys[i]] else ""
  }

  datatype Scan = Scan(commands: seq<Command>, missing: seq<string>) | Threw

  /** One visited step that has a rollback command: its effect on the scan so far. */
  function ScanStep(front: Scan, key: string, lookup: Option<Resolved>, vars: Variables): Scan {
    if front.Threw? then Threw
    else if lookup.None? then front.(missing := front.missing + [key])
    else
      var step := PlanStep(key, lookup, vars);
      if step.Plan? then front.(commands := front.commands + step.commands) else Threw
  }

  function ScanWanted(wanted: seq<nat>, keys: Keys, rollbackMap: RollbackMap, lookups: Lookups, vars: Variables): Scan {
    if wanted == [] then Scan([], [])
    else
      var n := |wanted| - 1;
      ScanStep(ScanWanted(wanted[..n], keys, rollbackMap, lookups, vars),
               RollbackKey(keys, rollbackMap, wanted[n]), LookupAt(lookups, wanted[n]), vars)
  }

  function PlanOf(scan: Scan): RollbackPlan {
    match scan
    case Threw => Raised
    case Scan(commands, missing) => if missing != [] then Unresolved(missing) else Ready(commands)
  }

  function RollbackPlanFor(successful: seq<nat>, keys: Keys, rollbackMap: RollbackMap, lookups: Lookups, vars: Variables): RollbackPlan {
    PlanOf(ScanWanted(Wanted(Reverse(successful), keys, rollbackMap), keys, rollbackMap, lookups, vars))
  }

  /** Each element is smaller than those before it. */
  ghost predicate Falling(s: seq<nat>) {
    forall a, b | 0 <= a < b < |s| :: s[a] > s[b]
  }

  lemma {:induction false} WantedMeaning(orders: seq<nat>, keys: Keys, rollbackMap: RollbackMap)
    ensures forall i :: i in Wanted(orders, keys, rollbackMap) <==> i in orders && Mapped(keys, rollbackMap, i)
  {
    if orders != [] {
      var n := |orders| - 1;
      WantedMeaning(orders[..n], keys, rollbackMap);
      assert forall i :: i in orders <==> i in orders[..n] || i == orders[n];
    }
  }

  lemma {:induction false} WantedFalls(orders: seq<nat>, keys: Keys, rollbackMap: RollbackMap)
    requires Falling(orders)
    ensures Falling(Wanted(orders, keys, rollbackMap))
  {
    if orders != [] {
      var n := |orders| - 1;
      var front := Wanted(orders[..n], keys, rollbackMap);
      WantedFalls(orders[..n], keys, rollbackMap);
      WantedMeaning(orders[..n], keys, rollbackMap);
      forall a | 0 <= a < |front|
        ensures front[a] > orders[n]
      {
        assert front[a] in front;
        var k :| 0 <= k < n && orders[..n][k] == front[a];
      }
    }
  }

  predicate Resolves(lookups: Lookups, i: nat, vars: Variables) {
    LookupAt(lookups, i).Some? && Renderable(LookupAt(lookups, i).value.template, vars)
  }

  /** The command is the rendered rollback entry of step i. */
  ghost predicate Compensates(c: Command, i: nat, keys: Keys, rollbackMap: RollbackMap, lookups: Lookups, vars: Variables) {
    && Mapped(keys, rollbackMap, i) && LookupAt(lookups, i).Some?
    && RendersAs(c, rollbackMap[keys[i]], LookupAt(lookups, i).value, vars)
  }

  lemma {:induction false} ScanStepMeaning(front: Scan, key: string, lookup: Option<Resolved>, vars: Variables)
    ensures var scan := ScanStep(front, key, lookup, vars);
            && (scan.Threw? <==> front.Threw? || (lookup.Some? && !Renderable(lookup.value.template, vars)))
            && ((scan.Scan? && scan.missing == []) <==>
                  front.Scan? && front.missing == [] && lookup.Some? && Renderable(lookup.value.template, vars))
            && (scan.Scan? && scan.missing == [] ==>
                  && |scan.commands| == |front.commands| + 1 && scan.commands[..|front.commands|] == front.commands
                  && RendersAs(scan.commands[|front.commands|], key, lookup.value, vars))
  {
    PlanStepMeaning(key, lookup, vars);
  }

  /** The scan has been through all steps and found a command for each. */
  predicate Complete(scan: Scan) {
    scan.Scan? && scan.missing == []
  }

  lemma {:induction false} ScanReady(wanted: seq<nat>, keys: Keys, rollbackMap: RollbackMap, lookups: Lookups, vars: Variables)
    ensures Complete(ScanWanted(wanted, keys, rollbackMap, lookups, vars)) <==> forall i | i in wanted :: Resolves(lookups, i, vars)
  {
    if wanted != [] {
      var n := |wanted| - 1;
      ScanReady(wanted[..n], keys, rollbackMap, lookups, vars);
      assert forall i :: i in wanted <==> i in wanted[..n] || i == wanted[n];
      ScanStepMeaning(ScanWanted(wanted[..n], keys, rollbackMap, lookups, vars), RollbackKey(keys, rollbackMap, wanted[n]),
                      LookupAt(lookups, wanted[n]), vars);
      assert Complete(ScanWanted(wanted, keys, rollbackMap, lookups, vars)) <==>
             Complete(ScanWanted(wanted[..n], keys, rollbackMap, lookups, vars)) && Resolves(lookups, wanted[n], vars);
      assert wanted[n] in wanted;
    }
  }

  ghost predicate AllCompensate(commands: seq<Command>, wanted: seq<nat>, keys: Keys, rollbackMap: RollbackMap, lookups: Lookups, vars: Variables) {
    && |commands| == |wanted|
    && forall k | 0 <= k < |wanted| :: Compensates(commands[k], wanted[k], keys, rollbackMap, lookups, vars)
  }

  lemma OneMoreCompensates(front: Scan, scan: Scan, wanted: seq<nat>, keys: Keys, rollbackMap: RollbackMap, lookups: Lookups, vars: Variables)
    requires wanted != [] && (Complete(front) ==> AllCompensate(front.commands, wanted[..|wanted| - 1], keys, rollbackMap, lookups, vars))
    requires Complete(scan) ==>
               && Complete(front) && |scan.commands| == |front.commands| + 1 && scan.commands[..|front.commands|] == front.commands
               && Compensates(scan.commands[|front.commands|], wanted[|wanted| - 1], keys, rollbackMap, lookups, vars)
    ensures Complete(scan) ==> AllCompensate(scan.commands, wanted, keys, rollbackMap, lookups, vars)
  {
    if Complete(scan) {
      var n := |wanted| - 1;
      forall k | 0 <= k < n
        ensures Compensates(scan.commands[k], wanted[k], keys, rollbackMap, lookups, vars)
      {
        assert Compensates(front.commands[k], wanted[..n][k], keys, rollbackMap, lookups, vars);
        assert scan.commands[k] == scan.commands[..n][k];
      }
    }
  }

  lemma {:induction false} ScanCommands(wanted: seq<nat>, keys: Keys, rollbackMap: RollbackMap, lookups: Lookups, vars: Variables)
    requires forall i | i in wanted :: Mapped(keys, rollbackMap, i)
    ensures var scan := ScanWanted(wanted, keys, rollbackMap, lookups, vars);
            Complete(scan) ==> AllCompensate(scan.commands, wanted, keys, rollbackMap, lookups, vars)
  {
    if wanted != [] {
      var n := |wanted| - 1;
      ScanCommands(wanted[..n], keys, rollbackMap, lookups, vars);
      ScanCompensates(wanted, keys, rollbackMap, lookups, vars);
      OneMoreCompensates(ScanWanted(wanted[..n], keys, rollbackMap, lookups, vars), ScanWanted(wanted, keys, rollbackMap, lookups, vars),
                         wanted, keys, rollbackMap, lookups, vars);
    }
  }

  /** The visit of step i ends the scan. */
  ghost predicate Breaks(lookups: Lookups, i: nat, vars: Variables) {
    LookupAt(lookups, i).Some? && !Resolves(lookups, i, vars)
  }

  lemma {:induction false} ScanThrows(wanted: seq<nat>, keys: Keys, rollbackMap: RollbackMap, lookups: Lookups, vars: Variables)
    requires forall i | i in wanted :: Mapped(keys, rollbackMap, i)
    ensures ScanWanted(wanted, keys, rollbackMap, lookups, vars).Threw? <==> exists i :: i in wanted && Breaks(lookups, i, vars)
  {
    if wanted != [] {
      var n := |wanted| - 1;
      ScanThrows(wanted[..n], keys, rollbackMap, lookups, vars);
      assert forall i :: i in wanted <==> i in wanted[..n] || i == wanted[n];
      ScanStepMeaning(ScanWanted(wanted[..n], keys, rollbackMap, lookups, vars), RollbackKey(keys, rollbackMap, wanted[n]),
                      LookupAt(lookups, wanted[n]), vars);
      var scan := ScanWanted(wanted, keys, rollbackMap, lookups, vars);
      assert scan.Threw? <==> ScanWanted(wanted[..n], keys, rollbackMap, lookups, vars).Threw? || Breaks(lookups, wanted[n], vars);
      assert wanted[n] in wanted;
    }
  }

  /** A scan without gaps extends the one before it by the rollback entry of its last step. */
  lemma {:induction false} ScanCompensates(wanted: seq<nat>, keys: Keys, rollbackMap: RollbackMap, lookups: Lookups, vars: Variables)
    requires wanted != [] && Mapped(keys, rollbackMap, wanted[|wanted| - 1])
    ensures var n := |wanted| - 1;
            var front := ScanWanted(wanted[..n], keys, rollbackMap, lookups, vars);
            var scan := ScanWanted(wanted, keys, rollbackMap, lookups, vars);
            Complete(scan) ==>
              && Complete(front) && |scan.commands| == |front.commands| + 1
              && scan.commands[..|front.commands|] == front.commands
              && Compensates(scan.commands[|front.commands|], wanted[n], keys, rollbackMap, lookups, vars)
  {
    var n := |wanted| - 1;
    ScanStepMeaning(ScanWanted(wanted[..n], keys, rollbackMap, lookups, vars), RollbackKey(keys, rollbackMap, wanted[n]),
                    LookupAt(lookups, wanted[n]), vars);
  }

  /** Steps whose rollback entry the plan must contain. */
  ghost predicate MustUndo(results: seq<StepResult>, keys: Keys, rollbackMap: RollbackMap, i: nat) {
    1 <= i <= |results| && results[i - 1].success && Mapped(keys, rollbackMap, i)
  }

  /**
   * The plan is ready exactly when every step to undo resolves and renders, and then it consists of their rollback
   * entries in strictly decreasing step order; nothing stands for failed or unmapped steps.
   */
  lemma RollbackPlanMeaning(results: seq<StepResult>, keys: Keys, rollbackMap: RollbackMap, lookups: Lookups, vars: Variables)
    returns (undone: seq<nat>)
    ensures forall i :: i in undone <==> MustUndo(results, keys, rollbackMap, i)
    ensures forall a, b | 0 <= a < b < |undone| :: undone[a] > undone[b]
    ensures var plan := RollbackPlanFor(Positions(results, true), keys, rollbackMap, lookups, vars);
            && (plan.Ready? <==> forall i | MustUndo(results, keys, rollbackMap, i) :: Resolves(lookups, i, vars))
            && (plan.Ready? ==>
                  && |plan.commands| == |undone|
                  && forall k | 0 <= k < |undone| :: Compensates(plan.commands[k], undone[k], keys, rollbackMap, lookups, vars))
  {
    undone := Wanted(Reverse(Positions(results, true)), keys, rollbackMap);
    UndoneMeaning(results, keys, rollbackMap, undone);
    PlanOfScan(undone, keys, rollbackMap, lookups, vars);
  }

  /** The list names exactly the successful steps. */
  ghost predicate ListsSuccesses(orders: seq<nat>, results: seq<StepResult>) {
    forall i :: i in orders <==> 1 <= i <= |results| && results[i - 1].success
  }

  /** The list names exactly the steps to undo. */
  ghost predicate ListsUndone(undone: seq<nat>, results: seq<StepResult>, keys: Keys, rollbackMap: RollbackMap) {
    forall i :: i in undone <==> MustUndo(results, keys, rollbackMap, i)
  }

  lemma {:induction false} WantedUndoes(orders: seq<nat>, results: seq<StepResult>, keys: Keys, rollbackMap: RollbackMap)
    requires ListsSuccesses(orders, results) && Falling(orders)
    ensures ListsUndone(Wanted(orders, keys, rollbackMap), results, keys, rollbackMap) && Falling(Wanted(orders, keys, rollbackMap))
  {
    WantedMeaning(orders, keys, rollbackMap);
    WantedFalls(orders, keys, rollbackMap);
  }

  /** The steps to undo, last first. */
  lemma {:induction false} UndoneMeaning(results: seq<StepResult>, keys: Keys, rollbackMap: RollbackMap, undone: seq<nat>)
    requires undone == Wanted(Reverse(Positions(results, true)), keys, rollbackMap)
    ensures ListsUndone(undone, results, keys, rollbackMap) && Falling(undone)
  {
    LastFirst(results);
    WantedUndoes(Reverse(Positions(results, true)), results, keys, rollbackMap);
  }

  /** The successful steps, last first. */
  lemma {:induction false} LastFirst(results: seq<StepResult>)
    ensures ListsSuccesses(Reverse(Positions(results, true)), results) && Falling(Reverse(Positions(results, true)))
  {
    PositionsMeaning(results, true);
    ReverseLists(Positions(results, true), Reverse(Positions(results, true)), results);
  }

  lemma {:induction false} ReverseLists(found: seq<nat>, reversed: seq<nat>, results: seq<StepResult>)
    requires reversed == Reverse(found) && ListsSuccesses(found, results)
    requires forall a, b | 0 <= a < b < |found| :: found[a] < found[b]
    ensures ListsSuccesses(reversed, results) && Falling(reversed)
  {
    ReverseMembers(found);
    ReverseDistinct(found);
  }

  /** Step i asks for this command and the catalogue does not have it. */
  ghost predicate Lacks(key: string, i: nat, keys: Keys, rollbackMap: RollbackMap, lookups: Lookups) {
    LookupAt(lookups, i).None? && RollbackKey(keys, rollbackMap, i) == key
  }

  ghost predicate LackedBy(key: string, wanted: seq<nat>, keys: Keys, rollbackMap: RollbackMap, lookups: Lookups) {
    exists i :: i in wanted && Lacks(key, i, keys, rollbackMap, lookups)
  }

  lemma LackedByOneMore(key: string, wanted: seq<nat>, keys: Keys, rollbackMap: RollbackMap, lookups: Lookups)
    requires wanted != []
    ensures var n := |wanted| - 1;
            LackedBy(key, wanted, keys, rollbackMap, lookups) <==>
            LackedBy(key, wanted[..n], keys, rollbackMap, lookups) || Lacks(key, wanted[n], keys, rollbackMap, lookups)
  {
    var n := |wanted| - 1;
    assert wanted[n] in wanted;
    assert forall i :: i in wanted <==> i in wanted[..n] || i == wanted[n];
    if LackedBy(key, wanted[..n], keys, rollbackMap, lookups) {
      var i :| i in wanted[..n] && Lacks(key, i, keys, rollbackMap, lookups);
      assert i in wanted;
    }
  }

  lemma {:induction false} ScanMissing(wanted: seq<nat>, keys: Keys, rollbackMap: RollbackMap, lookups: Lookups, vars: Variables, key: string)
    requires ScanWanted(wanted, keys, rollbackMap, lookups, vars).Scan?
    ensures key in ScanWanted(wanted, keys, rollbackMap, lookups, vars).missing <==> LackedBy(key, wanted, keys, rollbackMap, lookups)
  {
    if wanted != [] {
      var n := |wanted| - 1;
      ScanMissing(wanted[..n], keys, rollbackMap, lookups, vars, key);
      LackedByOneMore(key, wanted, keys, rollbackMap, lookups);
    }
  }

  /**
   * Why a plan is not ready: an error, exactly when some step to undo resolves to a row that does not render; otherwise the
   * commands that the catalogue does not have.
   */
  lemma RollbackPlanFails(results: seq<StepResult>, keys: Keys, rollbackMap: RollbackMap, lookups: Lookups, vars: Variables)
    ensures var plan := RollbackPlanFor(Positions(results, true), keys, rollbackMap, lookups, vars);
            && (plan.Raised? <==>
                  exists i :: MustUndo(results, keys, rollbackMap, i) && LookupAt(lookups, i).Some? && !Renderable(LookupAt(lookups, i).value.template, vars))
            && (plan.Unresolved? ==>
                  && plan.missing != []
                  && forall key :: key in plan.missing <==>
                       exists i :: MustUndo(results, keys, rollbackMap, i) && LookupAt(lookups, i).None? && rollbackMap[keys[i]] == key)
  {
    var undone := Wanted(Reverse(Positions(results, true)), keys, rollbackMap);
    UndoneMeaning(results, keys, rollbackMap, undone);
    ScanThrows(undone, keys, rollbackMap, lookups, vars);
    var plan := RollbackPlanFor(Positions(results, true), keys, rollbackMap, lookups, vars);
    assert plan.Raised? <==> exists i :: i in undone && Breaks(lookups, i, vars);
    forall i
      ensures i in undone && Breaks(lookups, i, vars) <==>
              MustUndo(results, keys, rollbackMap, i) && LookupAt(lookups, i).Some? && !Renderable(LookupAt(lookups, i).value.template, vars)
    {
    }
    if plan.Unresolved? {
      forall key
        ensures key in plan.missing <==>
                exists i :: MustUndo(results, keys, rollbackMap, i) && LookupAt(lookups, i).None? && rollbackMap[keys[i]] == key
      {
        ScanMissing(undone, keys, rollbackMap, lookups, vars, key);
        if i :| i in undone && Lacks(key, i, keys, rollbackMap, lookups) {
          assert MustUndo(results, keys, rollbackMap, i) && LookupAt(lookups, i).None? && rollbackMap[keys[i]] == key;
        }
        if i :| MustUndo(results, keys, rollbackMap, i) && LookupAt(lookups, i).None? && rollbackMap[keys[i]] == key {
          assert i in undone && Lacks(key, i, keys, rollbackMap, lookups);
        }
      }
    }
  }

  lemma {:induction false} PlanOfScan(wanted: seq<nat>, keys: Keys, rollbackMap: RollbackMap, lookups: Lookups, vars: Variables)
    requires forall i | i in wanted :: Mapped(keys, rollbackMap, i)
    ensures var plan := PlanOf(ScanWanted(wanted, keys, rollbackMap, lookups, vars));
            && (plan.Ready? <==> forall i | i in wanted :: Resolves(lookups, i, vars))
            && (plan.Ready? ==>
                  && |plan.commands| == |wanted|
                  && forall k | 0 <= k < |wanted| :: Compensates(plan.commands[k], wanted[k], keys, rollbackMap, lookups, vars))
  {
    ScanReady(wanted, keys, rollbackMap, lookups, vars);
    ScanCommands(wanted, keys, rollbackMap, lookups, vars);
  }

  lemma ReverseMembers(s: seq<nat>)
    ensures forall x :: x in Reverse(s) <==> x in s
  {
    forall x | x in s
      ensures x in Reverse(s)
    {
      var i :| 0 <= i < |s| && s[i] == x;
      assert Reverse(s)[|s| - 1 - i] == x;
    }
  }

  lemma WantedSnoc(orders: seq<nat>, i: nat, keys: Keys, rollbackMap: RollbackMap)
    ensures Wanted(orders + [i], keys, rollbackMap) ==
            if Mapped(keys, rollbackMap, i) then Wanted(orders, keys, rollbackMap) + [i] else Wanted(orders, keys, rollbackMap)
  {
    assert (orders + [i])[..|orders|] == orders;
  }

  lemma ScanSnoc(wanted: seq<nat>, i: nat, keys: Keys, rollbackMap: RollbackMap, lookups: Lookups, vars: Variables)
    ensures ScanWanted(wanted + [i], keys, rollbackMap, lookups, vars) ==
            ScanStep(ScanWanted(wanted, keys, rollbackMap, lookups, vars), RollbackKey(keys, rollbackMap, i), LookupAt(lookups, i), vars)
  {
    assert (wanted + [i])[..|wanted|] == wanted;
  }

  /** Lookups of other orders do not matter to a scan. */
  lemma {:induction false} ScanFrame(wanted: seq<nat>, keys: Keys, rollbackMap: RollbackMap, a: Lookups, b: Lookups, vars: Variables)
    requires forall i | i in wanted :: LookupAt(a, i) == LookupAt(b, i)
    ensures ScanWanted(wanted, keys, rollbackMap, a, vars) == ScanWanted(wanted, keys, rollbackMap, b, vars)
  {
    if wanted != [] {
      ScanFrame(wanted[..|wanted| - 1], keys, rollbackMap, a, b, vars);
    }
  }

  /** A rendering error while step i is visited is the end of the phase, whatever would have come after. */
  lemma {:induction false} ThrewStays(orders: seq<nat>, n: nat, keys: Keys, rollbackMap: RollbackMap, lookups: Lookups, vars: Variables)
    requires n <= |orders|
    requires ScanWanted(Wanted(orders[..n], keys, rollbackMap), keys, rollbackMap, lookups, vars).Threw?
    ensures ScanWanted(Wanted(orders, keys, rollbackMap), keys, rollbackMap, lookups, vars).Threw?
    decreases |orders|
  {
    if n == |orders| {
      assert orders[..n] == orders;
    } else {
      var m := |orders| - 1;
      assert orders[..m][..n] == orders[..n] && orders == orders[..m] + [orders[m]];
      ThrewStays(orders[..m], n, keys, rollbackMap, lookups, vars);
      WantedSnoc(orders[..m], orders[m], keys, rollbackMap);
      ScanSnoc(Wanted(orders[..m], keys, rollbackMap), orders[m], keys, rollbackMap, lookups, vars);
    }
  }

  /** The scan after the first n visited orders. */
  function ScanAt(orders: seq<nat>, n: nat, keys: Keys, rollbackMap: RollbackMap, lookups: Lookups, vars: Variables): Scan
    requires n <= |orders|
  {
    ScanWanted(Wanted(orders[..n], keys, rollbackMap), keys, rollbackMap, lookups, vars)
  }

  lemma {:induction false} ScanTurn(orders: seq<nat>, n: nat, keys: Keys, rollbackMap: RollbackMap, lookups: Lookups, v: Option<Resolved>, vars: Variables)
    requires n < |orders| && orders[n] !in orders[..n]
    ensures !Mapped(keys, rollbackMap, orders[n]) ==>
              ScanAt(orders, n + 1, keys, rollbackMap, lookups, vars) == ScanAt(orders, n, keys, rollbackMap, lookups, vars)
    ensures Mapped(keys, rollbackMap, orders[n]) ==>
              ScanAt(orders, n + 1, keys, rollbackMap, lookups[orders[n] := v], vars) ==
              ScanStep(ScanAt(orders, n, keys, rollbackMap, lookups, vars), rollbackMap[keys[orders[n]]], v, vars)
  {
    var i := orders[n];
    assert orders[..n + 1] == orders[..n] + [i];
    WantedSnoc(orders[..n], i, keys, rollbackMap);
    WantedMeaning(orders[..n], keys, rollbackMap);
    var wanted := Wanted(orders[..n], keys, rollbackMap);
    if Mapped(keys, rollbackMap, i) {
      ScanFrame(wanted, keys, rollbackMap, lookups, lookups[i := v], vars);
      ScanSnoc(wanted, i, keys, rollbackMap, lookups[i := v], vars);
    }
  }

  /** The catalogue keys of the steps to undo, in the order of the rollback. */
  function UndoKeys(t: Template, model: Option<Id>, keys: Keys, rollbackMap: RollbackMap, wanted: seq<nat>): (r: seq<CommandKey>)
    ensures |r| == |wanted|
    ensures forall k | 0 <= k < |wanted| :: r[k] == KeyFor(t, model, RollbackKey(keys, rollbackMap, wanted[k]))
  {
    seq(|wanted|, k requires 0 <= k < |wanted| => KeyFor(t, model, RollbackKey(keys, rollbackMap, wanted[k])))
  }

  /** The lookups of the first steps to undo, given the query that answered each. */
  function LookupsFrom(wanted: seq<nat>, sources: seq<Fetch>): Lookups
    requires |sources| <= |wanted|
    decreases |sources|
  {
    if sources == [] then map[]
    else
      var n := |sources| - 1;
      LookupsFrom(wanted, sources[..n])[wanted[n] := AnswerOf(sources[n])]
  }

  lemma WantedExtends(orders: seq<nat>, n: nat, keys: Keys, rollbackMap: RollbackMap)
    requires n <= |orders|
    ensures Wanted(orders[..n], keys, rollbackMap) <= Wanted(orders, keys, rollbackMap)
    decreases |orders|
  {
    if n < |orders| {
      var m := |orders| - 1;
      assert orders[..m][..n] == orders[..n];
      WantedExtends(orders[..m], n, keys, rollbackMap);
    } else {
      assert orders[..n] == orders;
    }
  }

  /** The next visited step, if mapped, is the next one to undo. */
  lemma {:induction false} WantedNext(orders: seq<nat>, n: nat, keys: Keys, rollbackMap: RollbackMap)
    requires n < |orders|
    ensures var before := Wanted(orders[..n], keys, rollbackMap);
            var all := Wanted(orders, keys, rollbackMap);
            if Mapped(keys, rollbackMap, orders[n])
            then Wanted(orders[..n + 1], keys, rollbackMap) == before + [orders[n]] && |before| < |all| && all[|before|] == orders[n]
            else Wanted(orders[..n + 1], keys, rollbackMap) == before
  {
    assert orders[..n + 1] == orders[..n] + [orders[n]];
    WantedSnoc(orders[..n], orders[n], keys, rollbackMap);
    WantedExtends(orders, n + 1, keys, rollbackMap);
  }

  lemma {:induction false} ReverseDistinct(s: seq<nat>)
    requires forall a, b | 0 <= a < b < |s| :: s[a] < s[b]
    ensures Falling(Reverse(s))
  {
  }

  /** What the first visited steps amount to, given the queries that answered the first steps to undo. */
  function ScanFirst(orders: seq<nat>, n: nat, wanted: seq<nat>, keys: Keys, rollbackMap: RollbackMap, sources: seq<Fetch>, vars: Variables): Scan
    requires n <= |orders| && |sources| <= |wanted|
  {
    ScanAt(orders, n, keys, rollbackMap, LookupsFrom(wanted, sources), vars)
  }

  lemma {:induction false} ScanFirstTurn(orders: seq<nat>, n: nat, wanted: seq<nat>, keys: Keys, rollbackMap: RollbackMap, sources: seq<Fetch>,
                      source: Fetch, vars: Variables)
    requires n < |orders| && wanted == Wanted(orders, keys, rollbackMap) && orders[n] !in orders[..n]
    requires |sources| == |Wanted(orders[..n], keys, rollbackMap)|
    ensures !Mapped(keys, rollbackMap, orders[n]) ==>
              && |sources| <= |wanted| && |sources| == |Wanted(orders[..n + 1], keys, rollbackMap)|
              && ScanFirst(orders, n + 1, wanted, keys, rollbackMap, sources, vars) ==
                 ScanFirst(orders, n, wanted, keys, rollbackMap, sources, vars)
    ensures Mapped(keys, rollbackMap, orders[n]) ==>
              && |sources| < |wanted| && wanted[|sources|] == orders[n]
              && |sources| + 1 == |Wanted(orders[..n + 1], keys, rollbackMap)|
              && ScanFirst(orders, n + 1, wanted, keys, rollbackMap, sources + [source], vars) ==
                 ScanStep(ScanFirst(orders, n, wanted, keys, rollbackMap, sources, vars), rollbackMap[keys[orders[n]]], AnswerOf(source), vars)
  {
    WantedNext(orders, n, keys, rollbackMap);
    WantedExtends(orders, n, keys, rollbackMap);
    assert (sources + [source])[..|sources|] == sources;
    ScanTurn(orders, n, keys, rollbackMap, LookupsFrom(wanted, sources), AnswerOf(source), vars);
  }

  /** What a resolved or unresolved rollback command does to the plan so far. */
  method AppendStep(front: Scan, key: string, v: Option<Resolved>, vars: Variables) returns (scan: Scan)
    requires front.Scan?
    ensures scan == ScanStep(front, key, v, vars)
  {
    if v.None? {
      return Scan(front.commands, front.missing + [key]);
    }
    var step := PlanStep(key, v, vars);
    if !step.Plan? {
      return Threw;
    }
    scan := Scan(front.commands + step.commands, front.missing);
  }

  /** What the loop has established after n visited steps. */
  ghost predicate ScannedTo(scan: Scan, orders: seq<nat>, n: nat, wanted: seq<nat>, keys: Keys, rollbackMap: RollbackMap,
                            undoKeys: seq<CommandKey>, listings: seq<seq<CommandRow>>, fetches: seq<Fetch>, ttl: Time,
                            whens: seq<Instants>, vars: Variables)
    requires n <= |orders| && |whens| <= |wanted| == |undoKeys| == |listings|
  {
    && |whens| == |Wanted(orders[..n], keys, rollbackMap)| && InOrder(whens)
    && scan == ScanFirst(orders, n, wanted, keys, rollbackMap, PassSources(fetches, ttl, undoKeys, listings, whens), vars)
  }

  /** One visited step with a rollback command. */
  method ScanMapped(cache: CommandCache, clock: Clock, vars: Variables, orders: seq<nat>, n: nat, keys: Keys, rollbackMap: RollbackMap,
                    undoKeys: seq<CommandKey>, listings: seq<seq<CommandRow>>, front: Scan, visited: nat,
                    ghost wanted: seq<nat>, ghost fetches: seq<Fetch>, ghost whens: seq<Instants>, ghost base: seq<Time>)
    returns (scan: Scan, ghost whens': seq<Instants>)
    requires cache.Valid() && cache.seen <= clock.now && visited == |whens| <= |wanted| == |undoKeys| && ListedFor(undoKeys, listings)
    requires Fetched(cache.log, PassFetches(fetches, cache.ttl, undoKeys, listings, whens))
    requires clock.trace == base + PassReadings(fetches, cache.ttl, undoKeys, listings, whens)
    requires n < |orders| && wanted == Wanted(orders, keys, rollbackMap) && orders[n] !in orders[..n]
    requires Mapped(keys, rollbackMap, orders[n]) && front.Scan?
    requires ScannedTo(front, orders, n, wanted, keys, rollbackMap, undoKeys, listings, fetches, cache.ttl, whens, vars)
    modifies cache, clock
    ensures cache.Valid() && cache.seen <= clock.now && |whens'| == visited + 1 <= |wanted|
    ensures Fetched(cache.log, PassFetches(fetches, cache.ttl, undoKeys, listings, whens'))
    ensures clock.trace == base + PassReadings(fetches, cache.ttl, undoKeys, listings, whens')
    ensures ScannedTo(scan, orders, n + 1, wanted, keys, rollbackMap, undoKeys, listings, fetches, cache.ttl, whens', vars)
  {
    ghost var sources := PassSources(fetches, cache.ttl, undoKeys, listings, whens);
    WantedNext(orders, n, keys, rollbackMap);
    var v;
    v, whens' := ResolveNext(cache, clock, undoKeys, listings, visited, fetches, whens, base);
    ghost var all := PassSources(fetches, cache.ttl, undoKeys, listings, whens');
    assert all == sources + [all[visited]];
    ScanFirstTurn(orders, n, wanted, keys, rollbackMap, sources, all[visited], vars);
    scan := AppendStep(front, rollbackMap[keys[orders[n]]], v, vars);
  }

  /** A visited step without a rollback command is passed over. */
  lemma {:induction false} ScanUnmapped(scan: Scan, orders: seq<nat>, n: nat, wanted: seq<nat>, keys: Keys, rollbackMap: RollbackMap,
                     undoKeys: seq<CommandKey>, listings: seq<seq<CommandRow>>, fetches: seq<Fetch>, ttl: Time,
                     whens: seq<Instants>, vars: Variables)
    requires n < |orders| && |whens| <= |wanted| == |undoKeys| == |listings|
    requires wanted == Wanted(orders, keys, rollbackMap) && orders[n] !in orders[..n] && !Mapped(keys, rollbackMap, orders[n])
    requires ScannedTo(scan, orders, n, wanted, keys, rollbackMap, undoKeys, listings, fetches, ttl, whens, vars)
    ensures ScannedTo(scan, orders, n + 1, wanted, keys, rollbackMap, undoKeys, listings, fetches, ttl, whens, vars)
  {
    ScanFirstTurn(orders, n, wanted, keys, rollbackMap, PassSources(fetches, ttl, undoKeys, listings, whens),
                  Fetch(CommandKey(0, None, "", None), [], 0.0), vars);
  }

  lemma {:induction false} ScannedToEnd(scan: Scan, orders: seq<nat>, n: nat, wanted: seq<nat>, keys: Keys, rollbackMap: RollbackMap,
                     undoKeys: seq<CommandKey>, listings: seq<seq<CommandRow>>, fetches: seq<Fetch>, ttl: Time,
                     whens: seq<Instants>, vars: Variables)
    requires n <= |orders| && |whens| <= |wanted| == |undoKeys| == |listings| && wanted == Wanted(orders, keys, rollbackMap)
    requires n == |orders| || scan.Threw?
    requires ScannedTo(scan, orders, n, wanted, keys, rollbackMap, undoKeys, listings, fetches, ttl, whens, vars)
    ensures scan == ScanWanted(wanted, keys, rollbackMap, LookupsFrom(wanted, PassSources(fetches, ttl, undoKeys, listings, whens)), vars)
    ensures n == |orders| ==> |whens| == |wanted|
  {
    if n == |orders| {
      assert orders[..n] == orders;
    } else {
      ThrewStays(orders, n, keys, rollbackMap, LookupsFrom(wanted, PassSources(fetches, ttl, undoKeys, listings, whens)), vars);
    }
  }

  lemma FallsPast(orders: seq<nat>, n: nat)
    requires Falling(orders) && n < |orders|
    ensures orders[n] !in orders[..n]
  {
  }

  /** One visited step. */
  method ScanOne(cache: CommandCache, clock: Clock, vars: Variables, orders: seq<nat>, n: nat, keys: Keys, rollbackMap: RollbackMap,
                 undoKeys: seq<CommandKey>, listings: seq<seq<CommandRow>>, front: Scan, visited: nat,
                 ghost wanted: seq<nat>, ghost fetches: seq<Fetch>, ghost whens: seq<Instants>, ghost base: seq<Time>)
    returns (scan: Scan, visited': nat, ghost whens': seq<Instants>)
    requires cache.Valid() && cache.seen <= clock.now && visited == |whens| <= |wanted| == |undoKeys| && ListedFor(undoKeys, listings)
    requires Fetched(cache.log, PassFetches(fetches, cache.ttl, undoKeys, listings, whens))
    requires clock.trace == base + PassReadings(fetches, cache.ttl, undoKeys, listings, whens)
    requires n < |orders| && wanted == Wanted(orders, keys, rollbackMap) && Falling(orders) && front.Scan?
    requires ScannedTo(front, orders, n, wanted, keys, rollbackMap, undoKeys, listings, fetches, cache.ttl, whens, vars)
    modifies cache, clock
    ensures cache.Valid() && cache.seen <= clock.now && visited' == |whens'| <= |wanted|
    ensures Fetched(cache.log, PassFetches(fetches, cache.ttl, undoKeys, listings, whens'))
    ensures clock.trace == base + PassReadings(fetches, cache.ttl, undoKeys, listings, whens')
    ensures ScannedTo(scan, orders, n + 1, wanted, keys, rollbackMap, undoKeys, listings, fetches, cache.ttl, whens', vars)
  {
    FallsPast(orders, n);
    if orders[n] !in keys || keys[orders[n]] !in rollbackMap {
      ScanUnmapped(front, orders, n, wanted, keys, rollbackMap, undoKeys, listings, fetches, cache.ttl, whens, vars);
      return front, visited, whens;
    }
    scan, whens' := ScanMapped(cache, clock, vars, orders, n, keys, rollbackMap, undoKeys, listings, front, visited,
                               wanted, fetches, whens, base);
    visited' := visited + 1;
  }

  /** The loop over the successful steps in reverse; it stops at a rendering error. */
  method ScanOrders(cache: CommandCache, clock: Clock, vars: Variables, orders: seq<nat>, keys: Keys, rollbackMap: RollbackMap,
                    undoKeys: seq<CommandKey>, listings: seq<seq<CommandRow>>, ghost wanted: seq<nat>, ghost fetches: seq<Fetch>)
    returns (scan: Scan, ghost whens: seq<Instants>)
    requires cache.Valid() && cache.seen <= clock.now && Fetched(cache.log, fetches)
    requires Falling(orders)
    requires wanted == Wanted(orders, keys, rollbackMap) && |undoKeys| == |wanted| && ListedFor(undoKeys, listings)
    modifies cache, clock
    ensures cache.Valid() && cache.seen <= clock.now
    ensures |whens| <= |wanted| && InOrder(whens) && (scan.Scan? ==> |whens| == |wanted|)
    ensures scan == ScanWanted(wanted, keys, rollbackMap,
                               LookupsFrom(wanted, PassSources(fetches, cache.ttl, undoKeys, listings, whens)), vars)
    ensures Fetched(cache.log, PassFetches(fetches, cache.ttl, undoKeys, listings, whens))
    ensures clock.trace == old(clock.trace) + PassReadings(fetches, cache.ttl, undoKeys, listings, whens)
  {
    scan, whens := Scan([], []), [];
    ghost var base := clock.trace;
    var visited := 0;
    for n := 0 to |orders|
      invariant cache.Valid() && cache.seen <= clock.now && visited == |whens| <= |wanted| && scan.Scan?
      invariant ScannedTo(scan, orders, n, wanted, keys, rollbackMap, undoKeys, listings, fetches, cache.ttl, whens, vars)
      invariant Fetched(cache.log, PassFetches(fetches, cache.ttl, undoKeys, listings, whens))
      invariant clock.trace == base + PassReadings(fetches, cache.ttl, undoKeys, listings, whens)
    {
      scan, visited, whens := ScanOne(cache, clock, vars, orders, n, keys, rollbackMap, undoKeys, listings, scan, visited,
                                      wanted, fetches, whens, base);
      if scan.Threw? {
        ScannedToEnd(scan, orders, n + 1, wanted, keys, rollbackMap, undoKeys, listings, fetches, cache.ttl, whens, vars);
        return;
      }
    }
    ScannedToEnd(scan, orders, |orders|, wanted, keys, rollbackMap, undoKeys, listings, fetches, cache.ttl, whens, vars);
  }

  /** Planning in phase 4: one pass over the steps to undo; listings[k] is what a query would list at the k-th. */
  method PlanRollback(cache: CommandCache, clock: Clock, t: Template, model: Option<Id>, vars: Variables,
                      successful: seq<nat>, keys: Keys, rollbackMap: RollbackMap, listings: seq<seq<CommandRow>>, ghost fetches: seq<Fetch>)
    returns (plan: RollbackPlan, ghost whens: seq<Instants>)
    requires cache.Valid() && cache.seen <= clock.now && Fetched(cache.log, fetches)
    requires forall a, b | 0 <= a < b < |successful| :: successful[a] < successful[b]
    requires ListedFor(UndoKeys(t, model, keys, rollbackMap, Wanted(Reverse(successful), keys, rollbackMap)), listings)
    modifies cache, clock
    ensures cache.Valid() && cache.seen <= clock.now
    ensures var wanted := Wanted(Reverse(successful), keys, rollbackMap);
            var undoKeys := UndoKeys(t, model, keys, rollbackMap, wanted);
            && |whens| <= |wanted| && InOrder(whens) && (!plan.Raised? ==> |whens| == |wanted|)
            && plan == RollbackPlanFor(successful, keys, rollbackMap,
                                       LookupsFrom(wanted, PassSources(fetches, cache.ttl, undoKeys, listings, whens)), vars)
            && Fetched(cache.log, PassFetches(fetches, cache.ttl, undoKeys, listings, whens))
            && clock.trace == old(clock.trace) + PassReadings(fetches, cache.ttl, undoKeys, listings, whens)
  {
    ReverseDistinct(successful);
    var wanted := Wanted(Reverse(successful), keys, rollbackMap);
    var scan;
    scan, whens := ScanOrders(cache, clock, vars, Reverse(successful), keys, rollbackMap,
                              UndoKeys(t, model, keys, rollbackMap, wanted), listings, wanted, fetches);
    plan := PlanOf(scan);
  }

  // ---------- The device ----------

  /** Effect of sending texts one after the other; how a text changes the device is left open. */
  function Replay<D>(apply: (string, D) -> D, texts: seq<string>, d: D): D {
    if texts == [] then d else Replay(apply, texts[1..], apply(texts[0], d))
  }

  /** Texts that took effect: those reported successful, given one result per command. */
  function Effective(commands: seq<Command>, results: seq<StepResult>): seq<string>
    requires |results| == |commands|
  {
    if commands == [] then []
    else
      var n := |commands| - 1;
      Effective(commands[..n], results[..n]) + (if results[n].success then [commands[n].text] else [])
  }

  lemma EffectiveSnoc(commands: seq<Command>, results: seq<StepResult>)
    requires |results| == |commands| > 0
    ensures var n := |commands| - 1;
            var front := Effective(commands[..n], results[..n]);
            Effective(commands, results) == if results[n].success then front + [commands[n].text] else front
  {
  }

  predicate AllOk(results: seq<StepResult>) {
    forall r | r in results :: r.success
  }

  /** On every device, sending undo right after text leaves no trace. */
  ghost predicate Cancels<D(!new)>(apply: (string, D) -> D, text: string, undo: string) {
    forall d :: apply(undo, apply(text, d)) == d
  }

  /** Each rollback command takes back the step it stands for, whatever else the device holds. */
  ghost predicate Undoes<D(!new)>(apply: (string, D) -> D, commands: seq<Command>, undone: seq<nat>, rollback: seq<Command>) {
    && |rollback| == |undone|
    && forall k | 0 <= k < |undone| ::
         1 <= undone[k] <= |commands| && Cancels(apply, commands[undone[k] - 1].text, rollback[k].text)
  }

  lemma {:induction false} ReplaySnoc<D>(apply: (string, D) -> D, texts: seq<string>, text: string, d: D)
    ensures Replay(apply, texts + [text], d) == apply(text, Replay(apply, texts, d))
  {
    if texts == [] {
      assert Replay(apply, [text], d) == Replay(apply, [], apply(text, d));
    } else {
      assert (texts + [text])[1..] == texts[1..] + [text];
      ReplaySnoc(apply, texts[1..], text, apply(texts[0], d));
    }
  }

  lemma {:induction false} AllOkEffective(commands: seq<Command>, results: seq<StepResult>)
    requires |results| == |commands| && AllOk(results)
    ensures |Effective(commands, results)| == |commands|
    ensures forall k | 0 <= k < |commands| :: Effective(commands, results)[k] == commands[k].text
  {
    if commands != [] {
      var n := |commands| - 1;
      AllOkEffective(commands[..n], results[..n]);
    }
  }

  lemma {:induction false} PositionsFront(results: seq<StepResult>)
    requires results != []
    ensures var n := |results| - 1;
            var front := Reverse(Positions(results[..n], true));
            Reverse(Positions(results, true)) == if results[n].success then [n + 1] + front else front
  {
    var n := |results| - 1;
    var front := Positions(results[..n], true);
    if results[n].success {
      assert Positions(results, true) == front + [n + 1];
      ReverseSnoc(front, n + 1);
    } else {
      assert Positions(results, true) == front;
    }
  }

  lemma {:induction false} PositionsBound(results: seq<StepResult>)
    ensures forall k | 0 <= k < |Positions(results, true)| :: 1 <= Reverse(Positions(results, true))[k] <= |results|
  {
    var found := Positions(results, true);
    PositionsMeaning(results, true);
    ReverseMembers(found);
    forall k | 0 <= k < |found|
      ensures 1 <= Reverse(found)[k] <= |results|
    {
      assert Reverse(found)[k] in Reverse(found);
    }
  }

  lemma {:induction false} UndoesPrefix<D(!new)>(apply: (string, D) -> D, commands: seq<Command>, n: nat, undone: seq<nat>, rollback: seq<Command>)
    requires n <= |commands| && Undoes(apply, commands, undone, rollback)
    requires forall k | 0 <= k < |undone| :: undone[k] <= n
    ensures Undoes(apply, commands[..n], undone, rollback)
  {
    forall k | 0 <= k < |undone|
      ensures commands[..n][undone[k] - 1] == commands[undone[k] - 1]
    {
    }
  }

  lemma {:induction false} UndoesTail<D(!new)>(apply: (string, D) -> D, commands: seq<Command>, i: nat, undone: seq<nat>, rollback: seq<Command>)
    requires Undoes(apply, commands, [i] + undone, rollback)
    ensures |rollback| > 0 && 1 <= i <= |commands| && Cancels(apply, commands[i - 1].text, rollback[0].text)
    ensures Undoes(apply, commands, undone, rollback[1..])
  {
    assert ([i] + undone)[0] == i;
    assert forall k | 0 <= k < |undone| :: ([i] + undone)[k + 1] == undone[k];
  }

  /** Rolling back every successful step, last first, restores the device. */
  lemma {:induction false} RollbackRestores<D(!new)>(apply: (string, D) -> D, commands: seq<Command>, results: seq<StepResult>,
                                               rollback: seq<Command>, texts: seq<string>, d: D)
    requires |results| == |commands|
    requires |texts| == |rollback| && forall k | 0 <= k < |rollback| :: texts[k] == rollback[k].text
    requires Undoes(apply, commands, Reverse(Positions(results, true)), rollback)
    ensures Replay(apply, texts, Replay(apply, Effective(commands, results), d)) == d
  {
    if commands != [] {
      var n := |commands| - 1;
      RestTail(apply, commands, results, rollback);
      EffectiveSnoc(commands, results);
      if !results[n].success {
        RollbackRestores(apply, commands[..n], results[..n], rollback, texts, d);
      } else {
        RollbackRestores(apply, commands[..n], results[..n], rollback[1..], texts[1..], d);
        LastUndone(apply, Effective(commands[..n], results[..n]), commands[n].text, texts, d);
      }
    }
  }

  /** What undoes all steps undoes the last one first, if it succeeded, and then the others. */
  lemma {:induction false} RestTail<D(!new)>(apply: (string, D) -> D, commands: seq<Command>, results: seq<StepResult>, rollback: seq<Command>)
    requires |results| == |commands| > 0 && Undoes(apply, commands, Reverse(Positions(results, true)), rollback)
    ensures var n := |commands| - 1;
            var front := Reverse(Positions(results[..n], true));
            if results[n].success
            then rollback != [] && Cancels(apply, commands[n].text, rollback[0].text) && Undoes(apply, commands[..n], front, rollback[1..])
            else Undoes(apply, commands[..n], front, rollback)
  {
    var front := Reverse(Positions(results[..|commands| - 1], true));
    PositionsFront(results);
    PositionsBound(results[..|commands| - 1]);
    RestOf(apply, commands, front, rollback, results[|commands| - 1].success);
  }

  lemma RestOf<D(!new)>(apply: (string, D) -> D, commands: seq<Command>, front: seq<nat>, rollback: seq<Command>, success: bool)
    requires commands != [] && forall k | 0 <= k < |front| :: front[k] < |commands|
    requires Undoes(apply, commands, if success then [|commands|] + front else front, rollback)
    ensures var n := |commands| - 1;
            if success
            then rollback != [] && Cancels(apply, commands[n].text, rollback[0].text) && Undoes(apply, commands[..n], front, rollback[1..])
            else Undoes(apply, commands[..n], front, rollback)
  {
    var n := |commands| - 1;
    if success {
      UndoesTail(apply, commands, n + 1, front, rollback);
      UndoesPrefix(apply, commands, n, front, rollback[1..]);
    } else {
      UndoesPrefix(apply, commands, n, front, rollback);
    }
  }

  /** The first rollback text takes back the last text sent; the others see the device as it was before that text. */
  lemma {:induction false} LastUndone<D(!new)>(apply: (string, D) -> D, sent: seq<string>, text: string, texts: seq<string>, d: D)
    requires texts != [] && Cancels(apply, text, texts[0])
    ensures Replay(apply, texts, Replay(apply, sent + [text], d)) == Replay(apply, texts[1..], Replay(apply, sent, d))
  {
    ReplaySnoc(apply, sent, text, d);
  }

  lemma ReverseSnoc(s: seq<nat>, x: nat)
    ensures Reverse(s + [x]) == [x] + Reverse(s)
  {
  }

  /** Every successful step has an entry in the rollback map. */
  ghost predicate AllMapped(results: seq<StepResult>, keys: Keys, rollbackMap: RollbackMap) {
    forall i | 1 <= i <= |results| && results[i - 1].success :: Mapped(keys, rollbackMap, i)
  }

  lemma {:induction false} AllMappedWanted(orders: seq<nat>, keys: Keys, rollbackMap: RollbackMap)
    requires forall i | i in orders :: Mapped(keys, rollbackMap, i)
    ensures Wanted(orders, keys, rollbackMap) == orders
  {
    if orders != [] {
      var n := |orders| - 1;
      assert orders[n] in orders && orders == orders[..n] + [orders[n]];
      AllMappedWanted(orders[..n], keys, rollbackMap);
    }
  }

  lemma NothingLeftOut(results: seq<StepResult>, keys: Keys, rollbackMap: RollbackMap)
    requires AllMapped(results, keys, rollbackMap)
    ensures Wanted(Reverse(Positions(results, true)), keys, rollbackMap) == Reverse(Positions(results, true))
  {
    PositionsMeaning(results, true);
    ReverseMembers(Positions(results, true));
    AllMappedWanted(Reverse(Positions(results, true)), keys, rollbackMap);
  }

  /**
   * Saga correctness: provision, fail, roll back, all rollback commands reported successful. If every successful step is
   * mapped and each rollback command undoes its step, the device is exactly as it was.
   */
  lemma SagaRestores<D(!new)>(apply: (string, D) -> D, commands: seq<Command>, results: seq<StepResult>, keys: Keys,
                        rollbackMap: RollbackMap, lookups: Lookups, vars: Variables,
                        rollback: seq<Command>, rollbackResults: seq<StepResult>, d: D)
    requires |results| == |commands|
    requires RollbackPlanFor(Positions(results, true), keys, rollbackMap, lookups, vars) == Ready(rollback)
    requires |rollbackResults| == |rollback| && AllOk(rollbackResults)
    requires AllMapped(results, keys, rollbackMap)
    requires Undoes(apply, commands, Wanted(Reverse(Positions(results, true)), keys, rollbackMap), rollback)
    ensures Replay(apply, Effective(rollback, rollbackResults), Replay(apply, Effective(commands, results), d)) == d
  {
    NothingLeftOut(results, keys, rollbackMap);
    AllOkEffective(rollback, rollbackResults);
    RollbackRestores(apply, commands, results, rollback, Effective(rollback, rollbackResults), d);
  }

  // ---------- Steps without a rollback entry ----------

  /** A step is undone exactly when it is mapped, so an equal number means that all are. */
  lemma {:induction false} WantedLength(orders: seq<nat>, keys: Keys, rollbackMap: RollbackMap)
    ensures |Wanted(orders, keys, rollbackMap)| <= |orders|
    ensures |Wanted(orders, keys, rollbackMap)| == |orders| <==> forall i | i in orders :: Mapped(keys, rollbackMap, i)
  {
    if orders != [] {
      var n := |orders| - 1;
      WantedLength(orders[..n], keys, rollbackMap);
      assert forall i :: i in orders <==> i in orders[..n] || i == orders[n];
    }
  }

  lemma AllMappedIff(results: seq<StepResult>, keys: Keys, rollbackMap: RollbackMap)
    ensures AllMapped(results, keys, rollbackMap) <==>
            |Wanted(Reverse(Positions(results, true)), keys, rollbackMap)| == |Positions(results, true)|
  {
    PositionsMeaning(results, true);
    ReverseMembers(Positions(results, true));
    WantedLength(Reverse(Positions(results, true)), keys, rollbackMap);
    AllMappedOrders(results, keys, rollbackMap, Reverse(Positions(results, true)));
  }

  lemma {:induction false} AllMappedOrders(results: seq<StepResult>, keys: Keys, rollbackMap: RollbackMap, orders: seq<nat>)
    requires forall i :: i in orders <==> 1 <= i <= |results| && results[i - 1].success
    ensures AllMapped(results, keys, rollbackMap) <==> forall i | i in orders :: Mapped(keys, rollbackMap, i)
  {
  }

  /** No rollback command reads like a step that took effect. */
  ghost predicate Disjoint(commands: seq<Command>, results: seq<StepResult>, rollback: seq<Command>)
    requires |results| == |commands|
  {
    forall i, c | 0 <= i < |commands| && results[i].success && c in rollback :: c.text != commands[i].text
  }

  /** A device that counts the steps done and not undone. */
  function Balance(forward: set<string>, back: set<string>): (string, int) -> int {
    (text, d) => if text in forward then d + 1 else if text in back then d - 1 else d
  }

  lemma {:induction false} BalanceRises(forward: set<string>, back: set<string>, texts: seq<string>, d: int)
    requires forall t | t in texts :: t in forward
    ensures Replay(Balance(forward, back), texts, d) == d + |texts|
  {
    if texts != [] {
      assert texts[0] in texts;
      BalanceRises(forward, back, texts[1..], d + 1);
    }
  }

  lemma {:induction false} BalanceFalls(forward: set<string>, back: set<string>, texts: seq<string>, d: int)
    requires forall t | t in texts :: t in back && t !in forward
    ensures Replay(Balance(forward, back), texts, d) == d - |texts|
  {
    if texts != [] {
      assert texts[0] in texts;
      BalanceFalls(forward, back, texts[1..], d - 1);
    }
  }

  lemma {:induction false} EffectiveMeaning(commands: seq<Command>, results: seq<StepResult>)
    requires |results| == |commands|
    ensures |Effective(commands, results)| == |Positions(results, true)|
    ensures forall t :: t in Effective(commands, results) <==> exists i :: 0 <= i < |commands| && results[i].success && commands[i].text == t
  {
    if commands != [] {
      var n := |commands| - 1;
      EffectiveMeaning(commands[..n], results[..n]);
      forall t | t in Effective(commands, results)
        ensures exists i :: 0 <= i < |commands| && results[i].success && commands[i].text == t
      {
        if t in Effective(commands[..n], results[..n]) {
          var i :| 0 <= i < n && results[..n][i].success && commands[..n][i].text == t;
          assert commands[i].text == t;
        }
      }
      forall t | exists i :: 0 <= i < |commands| && results[i].success && commands[i].text == t
        ensures t in Effective(commands, results)
      {
        var i :| 0 <= i < |commands| && results[i].success && commands[i].text == t;
        if i < n {
          assert commands[..n][i].text == t && results[..n][i].success;
        }
      }
    }
  }

  function Texts(texts: seq<string>): set<string> {
    set t | t in texts
  }

  /** The steps that a ready plan undoes. */
  lemma UndoneSteps(results: seq<StepResult>, keys: Keys, rollbackMap: RollbackMap, lookups: Lookups, vars: Variables, rollback: seq<Command>)
    requires RollbackPlanFor(Positions(results, true), keys, rollbackMap, lookups, vars) == Ready(rollback)
    ensures var undone := Wanted(Reverse(Positions(results, true)), keys, rollbackMap);
            && |undone| == |rollback|
            && forall k | 0 <= k < |undone| :: MustUndo(results, keys, rollbackMap, undone[k])
  {
    var undone := Wanted(Reverse(Positions(results, true)), keys, rollbackMap);
    UndoneMeaning(results, keys, rollbackMap, undone);
    ScanCommands(undone, keys, rollbackMap, lookups, vars);
    assert forall k | 0 <= k < |undone| :: undone[k] in undone;
  }

  lemma BalanceCancels(forward: set<string>, back: set<string>, text: string, undo: string)
    requires text in forward && undo in back && undo !in forward
    ensures Cancels(Balance(forward, back), text, undo)
  {
  }

  /** The counting device obeys the undo law. */
  lemma BalanceObeys(commands: seq<Command>, results: seq<StepResult>, keys: Keys, rollbackMap: RollbackMap,
                     undone: seq<nat>, rollback: seq<Command>, forward: set<string>, back: set<string>)
    requires |results| == |commands| && |undone| == |rollback|
    requires forall k | 0 <= k < |undone| :: MustUndo(results, keys, rollbackMap, undone[k])
    requires forall i | 0 <= i < |commands| && results[i].success :: commands[i].text in forward
    requires forall c | c in rollback :: c.text in back && c.text !in forward
    ensures Undoes(Balance(forward, back), commands, undone, rollback)
  {
    forall k | 0 <= k < |undone|
      ensures 1 <= undone[k] <= |commands|
      ensures Cancels(Balance(forward, back), commands[undone[k] - 1].text, rollback[k].text)
    {
      assert MustUndo(results, keys, rollbackMap, undone[k]);
      assert rollback[k] in rollback;
      BalanceCancels(forward, back, commands[undone[k] - 1].text, rollback[k].text);
    }
  }

  lemma RollbackTexts(rollback: seq<Command>, rollbackResults: seq<StepResult>, forward: set<string>, back: set<string>)
    requires |rollbackResults| == |rollback| && AllOk(rollbackResults)
    requires forall c | c in rollback :: c.text in back && c.text !in forward
    ensures |Effective(rollback, rollbackResults)| == |rollback|
    ensures forall t | t in Effective(rollback, rollbackResults) :: t in back && t !in forward
  {
    AllOkEffective(rollback, rollbackResults);
    forall k | 0 <= k < |rollback|
      ensures Effective(rollback, rollbackResults)[k] in back && Effective(rollback, rollbackResults)[k] !in forward
    {
      assert rollback[k] in rollback;
    }
  }

  /** What remains on the counting device is the number of successful steps that nothing undid. */
  lemma BalanceRemains(commands: seq<Command>, results: seq<StepResult>, rollback: seq<Command>, rollbackResults: seq<StepResult>,
                       forward: set<string>, back: set<string>)
    requires |results| == |commands| && |rollbackResults| == |rollback| && AllOk(rollbackResults)
    requires forall i | 0 <= i < |commands| && results[i].success :: commands[i].text in forward
    requires forall c | c in rollback :: c.text in back && c.text !in forward
    ensures Replay(Balance(forward, back), Effective(rollback, rollbackResults), Replay(Balance(forward, back), Effective(commands, results), 0))
            == |Positions(results, true)| - |rollback|
  {
    var before := Replay(Balance(forward, back), Effective(commands, results), 0);
    EffectiveMeaning(commands, results);
    BalanceRises(forward, back, Effective(commands, results), 0);
    RollbackTexts(rollback, rollbackResults, forward, back);
    BalanceFalls(forward, back, Effective(rollback, rollbackResults), before);
  }

  /** The run leaves every device that obeys the undo law as it found it. */
  ghost predicate AlwaysRestores(commands: seq<Command>, results: seq<StepResult>, undone: seq<nat>,
                                 rollback: seq<Command>, rollbackResults: seq<StepResult>)
    requires |results| == |commands| && |rollbackResults| == |rollback|
  {
    forall apply: (string, int) -> int, d: int | Undoes(apply, commands, undone, rollback) ::
      Replay(apply, Effective(rollback, rollbackResults), Replay(apply, Effective(commands, results), d)) == d
  }

  /** With a successful step left out of the map, some lawful device is not restored. */
  lemma LeavesBehind(commands: seq<Command>, results: seq<StepResult>, keys: Keys, rollbackMap: RollbackMap,
                     lookups: Lookups, vars: Variables, rollback: seq<Command>, rollbackResults: seq<StepResult>)
    requires |results| == |commands|
    requires RollbackPlanFor(Positions(results, true), keys, rollbackMap, lookups, vars) == Ready(rollback)
    requires |rollbackResults| == |rollback| && AllOk(rollbackResults)
    requires Disjoint(commands, results, rollback) && !AllMapped(results, keys, rollbackMap)
    ensures !AlwaysRestores(commands, results, Wanted(Reverse(Positions(results, true)), keys, rollbackMap), rollback, rollbackResults)
  {
    var forward := Texts(Effective(commands, results));
    var back := set c | c in rollback :: c.text;
    var undone := Wanted(Reverse(Positions(results, true)), keys, rollbackMap);
    EffectiveMeaning(commands, results);
    UndoneSteps(results, keys, rollbackMap, lookups, vars, rollback);
    BalanceObeys(commands, results, keys, rollbackMap, undone, rollback, forward, back);
    BalanceRemains(commands, results, rollback, rollbackResults, forward, back);
    AllMappedIff(results, keys, rollbackMap);
    WantedLength(Reverse(Positions(results, true)), keys, rollbackMap);
  }

  /**
   * An order may be ROLLED_BACK while a successful step stays on the device: steps that the rollback map leaves out are
   * skipped. If no rollback command reads like a step that took effect, every lawful device is restored exactly when the
   * map covers every successful step.
   */
  lemma RestoresIffAllMapped(commands: seq<Command>, results: seq<StepResult>, keys: Keys, rollbackMap: RollbackMap,
                             lookups: Lookups, vars: Variables, rollback: seq<Command>, rollbackResults: seq<StepResult>)
    requires |results| == |commands|
    requires RollbackPlanFor(Positions(results, true), keys, rollbackMap, lookups, vars) == Ready(rollback)
    requires |rollbackResults| == |rollback| && AllOk(rollbackResults)
    requires Disjoint(commands, results, rollback)
    ensures AlwaysRestores(commands, results, Wanted(Reverse(Positions(results, true)), keys, rollbackMap), rollback, rollbackResults)
            <==> AllMapped(results, keys, rollbackMap)
  {
    var undone := Wanted(Reverse(Positions(results, true)), keys, rollbackMap);
    if AllMapped(results, keys, rollbackMap) {
      forall apply: (string, int) -> int, d: int | Undoes(apply, commands, undone, rollback)
        ensures Replay(apply, Effective(rollback, rollbackResults), Replay(apply, Effective(commands, results), d)) == d
      {
        SagaRestores(apply, commands, results, keys, rollbackMap, lookups, vars, rollback, rollbackResults, d);
      }
    } else {
      LeavesBehind(commands, results, keys, rollbackMap, lookups, vars, rollback, rollbackResults);
    }
  }

  /** Why the texts must differ: three times a toggle, of which only the first is mapped, are undone by toggling once. */
  lemma ToggleRestores<D(!new)>(apply: (string, D) -> D, d: D)
    requires Cancels(apply, "toggle", "toggle")
    ensures Replay(apply, ["toggle"], Replay(apply, ["toggle", "toggle", "toggle"], d)) == d
    ensures var ok := StepResult("toggle", None, true);
            !AllMapped([ok, ok, ok], map[1 := "first"], map["first" := "undo"])
  {
    var once := apply("toggle", d);
    assert apply("toggle", once) == d;
    assert ["toggle", "toggle", "toggle"][1..] == ["toggle", "toggle"] && ["toggle", "toggle"][1..] == ["toggle"];
    assert Replay(apply, ["toggle"], d) == Replay(apply, [], once);
    assert Replay(apply, ["toggle", "toggle"], once) == Replay(apply, ["toggle"], d);
    assert Replay(apply, ["toggle"], once) == Replay(apply, [], d);
    assert !Mapped(map[1 := "first"], map["first" := "undo"], 2);
  }
}
