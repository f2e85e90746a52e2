/** What phase 1 decides about a pending order, and from what. */
module OrderValidation {
  import opened Prelude
  import opened Commands
  import opened CommandCaching
  import opened Orders
  import opened Saga
  import opened OrderProtocol
  import opened OrderOutcomes

  /** The template is there and active, and the snapshot has the names that it requires. */
  ghost predicate Admitted(order: Order, readout: Readout) {
    && readout.Readout? && readout.template.Some? && readout.template.value.active
    && forall name | name in readout.template.value.required :: name in order.snapshot
  }

  /** The order is FAILED with the one row that says so, and the delivery is over; nothing else has changed. */
  ghost predicate RefusedIn(s: State, t: State, d: Id, o: Id)
    requires o in s.orders
  {
    && t == s.(workers := s.workers[d := Done], orders := t.orders, stages := t.stages, steps := t.steps)
    && t.orders == s.orders[o := s.orders[o].(status := Failed)]
    && t.steps == s.steps[o := StepsOf(s, o) + [StepRow(0, "__validation__", Validation, false)]]
    && t.stages == s.stages[o := Refused]
  }

  /** The order is VALIDATING and the delivery goes on with a complete plan. */
  ghost predicate TakenIn(s: State, t: State, d: Id, o: Id, readout: Readout, vars: Variables)
    requires o in s.orders && readout.Readout? && readout.template.Some?
  {
    && d in t.workers && t.workers[d].Validated? && t.workers[d].order == o
    && t.orders == s.orders[o := s.orders[o].(status := Validating)] && t.steps == s.steps
    && var ctx := t.workers[d].ctx;
       && ctx.template == readout.template.value && ctx.sight == readout.sight && ctx.vars == vars && RendersTemplate(ctx)
  }

  lemma {:induction false} FindStop(lookups: seq<Option<Resolved>>, vars: Variables, n: nat) returns (i: nat)
    requires n < |lookups| && (lookups[n].None? || !Renderable(lookups[n].value.template, vars))
    ensures StopsAt(lookups, vars, i)
  {
    if j: nat :| j < n && (lookups[j].None? || !Renderable(lookups[j].value.template, vars)) {
      i := FindStop(lookups, vars, j);
    } else {
      i := n;
      forall j | 0 <= j < i
        ensures lookups[j].Some? && Renderable(lookups[j].value.template, vars)
      {
      }
    }
  }

  lemma ExaminedPlanned(order: Order, readout: Readout, vars: Variables)
    requires Admitted(order, readout) && Overlaid(vars, readout.template.value.commandVars, order.snapshot)
    ensures var t := readout.template.value;
            match BuildPlan(t.steps, PlanLookups(t, readout.sight), vars)
            case Plan(commands) =>
              Examine(order, readout) == if readout.portFound then Usable(Ctx(t, readout.sight, vars, commands)) else Refusable
            case Invalid => Examine(order, readout) == Refusable
            case Crashed => Examine(order, readout) == Broke
  {
    ContextOverlays(readout.template.value.commandVars, order.snapshot);
  }

  lemma Refuses(s: State, d: Id, o: Id, readout: Readout)
    requires d in s.workers && s.workers[d] == Received(o) && o in s.orders && s.orders[o].status == Pending
    requires readout.Readout? && Examine(s.orders[o], readout) == Refusable
    ensures RefusedIn(s, Exec(s, Validate(d, readout)), d, o)
  {
    assert Exec(s, Validate(d, readout)) == Refuse(s, d, o);
  }

  lemma Takes(s: State, d: Id, o: Id, readout: Readout, ctx: Ctx)
    requires d in s.workers && s.workers[d] == Received(o) && o in s.orders && s.orders[o].status == Pending
    requires readout.Readout? && readout.template.Some? && Examine(s.orders[o], readout) == Usable(ctx)
    requires ctx.template == readout.template.value && ctx.sight == readout.sight && RendersTemplate(ctx)
    ensures TakenIn(s, Exec(s, Validate(d, readout)), d, o, readout, ctx.vars)
  {
    assert Exec(s, Validate(d, readout)) == Take(s, d, o, ctx);
  }

  /**
   * Phase 1 refuses the order when the template is missing or inactive or requires a name that the snapshot lacks, when
   * the first step that cannot be planned is unresolved or lacks a variable, or when the plan is complete and the port is
   * not found. It fails without a trace when the first such step is malformed. Otherwise it takes the order.
   */
  lemma PhaseOneDecides(s: State, d: Id, o: Id, readout: Readout, vars: Variables)
    requires d in s.workers && s.workers[d] == Received(o) && o in s.orders && s.orders[o].status == Pending && readout.Readout?
    requires readout.template.Some? ==> Overlaid(vars, readout.template.value.commandVars, s.orders[o].snapshot)
    ensures var t := Exec(s, Validate(d, readout));
            && (!Admitted(s.orders[o], readout) ==> RefusedIn(s, t, d, o))
            && (Admitted(s.orders[o], readout) ==>
                  var lookups := PlanLookups(readout.template.value, readout.sight);
                  && (forall i: nat | StopsAt(lookups, vars, i) ::
                        if FailsValidation(lookups[i], vars) then RefusedIn(s, t, d, o) else t == s.(workers := s.workers[d := Failing(o)]))
                  && ((forall i: nat :: !StopsAt(lookups, vars, i)) ==>
                        if readout.portFound then TakenIn(s, t, d, o, readout, vars) else RefusedIn(s, t, d, o)))
  {
    var order := s.orders[o];
    if !Admitted(order, readout) {
      NotAdmitted(order, readout);
      Refuses(s, d, o, readout);
    } else {
      var lookups := PlanLookups(readout.template.value, readout.sight);
      forall i: nat | StopsAt(lookups, vars, i)
        ensures if FailsValidation(lookups[i], vars) then RefusedIn(s, Exec(s, Validate(d, readout)), d, o)
                else Exec(s, Validate(d, readout)) == s.(workers := s.workers[d := Failing(o)])
      {
        Stops(s, d, o, readout, vars, i);
      }
      if forall i: nat :: !StopsAt(lookups, vars, i) {
        Completes(s, d, o, readout, vars);
      }
    }
  }

  lemma NotAdmitted(order: Order, readout: Readout)
    requires readout.Readout? && !Admitted(order, readout)
    ensures Examine(order, readout) == Refusable
  {
  }

  lemma Stops(s: State, d: Id, o: Id, readout: Readout, vars: Variables, i: nat)
    requires d in s.workers && s.workers[d] == Received(o) && o in s.orders && s.orders[o].status == Pending
    requires Admitted(s.orders[o], readout) && Overlaid(vars, readout.template.value.commandVars, s.orders[o].snapshot)
    requires StopsAt(PlanLookups(readout.template.value, readout.sight), vars, i)
    ensures if FailsValidation(PlanLookups(readout.template.value, readout.sight)[i], vars)
            then RefusedIn(s, Exec(s, Validate(d, readout)), d, o)
            else Exec(s, Validate(d, readout)) == s.(workers := s.workers[d := Failing(o)])
  {
    var t := readout.template.value;
    PlanStops(t.steps, PlanLookups(t, readout.sight), vars, i);
    ExaminedPlanned(s.orders[o], readout, vars);
    if FailsValidation(PlanLookups(t, readout.sight)[i], vars) {
      Refuses(s, d, o, readout);
    }
  }

  lemma Completes(s: State, d: Id, o: Id, readout: Readout, vars: Variables)
    requires d in s.workers && s.workers[d] == Received(o) && o in s.orders && s.orders[o].status == Pending
    requires Admitted(s.orders[o], readout) && Overlaid(vars, readout.template.value.commandVars, s.orders[o].snapshot)
    requires forall i: nat :: !StopsAt(PlanLookups(readout.template.value, readout.sight), vars, i)
    ensures if readout.portFound then TakenIn(s, Exec(s, Validate(d, readout)), d, o, readout, vars)
            else RefusedIn(s, Exec(s, Validate(d, readout)), d, o)
  {
    var t := readout.template.value;
    var lookups := PlanLookups(t, readout.sight);
    forall i: nat | i < |lookups|
      ensures lookups[i].Some? && Renderable(lookups[i].value.template, vars)
    {
      if lookups[i].None? || !Renderable(lookups[i].value.template, vars) {
        var k := FindStop(lookups, vars, i);
      }
    }
    PlanMeaning(t.steps, lookups, vars);
    ExaminedPlanned(s.orders[o], readout, vars);
    if readout.portFound {
      var ctx := Ctx(t, readout.sight, vars, BuildPlan(t.steps, lookups, vars).commands);
      PlanRenders(ctx);
      Takes(s, d, o, readout, ctx);
    } else {
      Refuses(s, d, o, readout);
    }
  }

  /** A delivery that finds the order gone or no longer pending is over; one that cannot read takes the failure exit. */
  lemma PhaseOneSkips(s: State, d: Id, o: Id, readout: Readout)
    requires d in s.workers && s.workers[d] == Received(o)
    ensures readout.Unreadable? ==> Exec(s, Validate(d, readout)) == s.(workers := s.workers[d := Failing(o)])
    ensures readout.Readout? && (o !in s.orders || s.orders[o].status != Pending) ==>
              Exec(s, Validate(d, readout)) == s.(workers := s.workers[d := Done])
  {
  }
}
