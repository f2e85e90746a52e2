/** From a command key to a rendered command: catalogue query, rendering, planning (provisioning_worker.py). */
module Commands {
  import opened Prelude
  import opened TtlLog
  import opened CommandCaching

  // ---------- The catalogue query ----------

  datatype CommandRow = CommandRow(
    id: Id, manufacturer: Id, model: Option<Id>, key: string, version: Option<string>, active: bool,
    template: seq<Piece>, outputParser: Option<string>, timeoutMs: int, requiresPrivileged: bool)

  const QUERY_LIMIT := 8

  /** ORDER BY olt_model_id DESC NULLS LAST. */
  predicate NotAfter(a: Option<Id>, b: Option<Id>) {
    b.None? || (a.Some? && a.value >= b.value)
  }

  /** Any listing of the active rows of a (manufacturer, key) in the order of the query, before its limit. */
  ghost predicate IsListing(rows: seq<CommandRow>, table: set<CommandRow>, manufacturer: Id, key: string) {
    && (forall r :: r in rows <==> r in table && r.manufacturer == manufacturer && r.key == key && r.active)
    && (forall i, j | 0 <= i < j < |rows| :: rows[i].id != rows[j].id && NotAfter(rows[i].model, rows[j].model))
  }

  /** What can be said of such a listing without the table. */
  predicate IsListed(rows: seq<CommandRow>, manufacturer: Id, key: string) {
    && (forall r | r in rows :: r.manufacturer == manufacturer && r.key == key && r.active)
    && (forall i, j | 0 <= i < j < |rows| :: rows[i].id != rows[j].id && NotAfter(rows[i].model, rows[j].model))
  }

  function Window(rows: seq<CommandRow>): seq<CommandRow> {
    if |rows| <= QUERY_LIMIT then rows else rows[..QUERY_LIMIT]
  }

  predicate VersionMatches(row: Option<string>, requested: Option<string>) {
    row.None? || requested.None? || row == requested
  }

  /** The row serves the given model (None: manufacturer-wide) at the requested version. */
  predicate Serves(r: CommandRow, model: Option<Id>, version: Option<string>) {
    r.model == model && VersionMatches(r.version, version)
  }

  function Build(r: CommandRow): Resolved {
    Resolved(r.id, r.template, r.outputParser, r.timeoutMs, r.requiresPrivileged)
  }

  function FirstServing(rows: seq<CommandRow>, model: Option<Id>, version: Option<string>): Option<CommandRow> {
    if rows == [] then None
    else if Serves(rows[0], model, version) then Some(rows[0])
    else FirstServing(rows[1..], model, version)
  }

  function Query(rows: seq<CommandRow>, model: Option<Id>, version: Option<string>): Option<Resolved> {
    var window := Window(rows);
    var exact := if model.Some? then FirstServing(window, model, version) else None;
    var wide := FirstServing(window, None, version);
    if exact.Some? then Some(Build(exact.value))
    else if wide.Some? then Some(Build(wide.value))
    else None
  }

  /** A row for exactly this model (None: for all models), whose version, if it names one, is the one asked for. */
  ghost predicate Suits(r: CommandRow, model: Option<Id>, version: Option<string>) {
    r.model == model && (r.version.None? || version.None? || r.version.value == version.value)
  }

  /** The answer has the row's own fields. */
  ghost predicate Carries(answer: Resolved, r: CommandRow) {
    && answer.id == r.id && answer.template == r.template && answer.outputParser == r.outputParser
    && answer.timeoutMs == r.timeoutMs && answer.requiresPrivileged == r.requiresPrivileged
  }

  ghost predicate SomeServes(rows: seq<CommandRow>, model: Option<Id>, version: Option<string>) {
    exists r :: r in rows && Suits(r, model, version)
  }

  ghost predicate BuiltFrom(rows: seq<CommandRow>, model: Option<Id>, version: Option<string>, answer: Option<Resolved>) {
    answer.Some? && exists r :: r in rows && Suits(r, model, version) && Carries(answer.value, r)
  }

  /** The promised preference: the exact model first, then manufacturer-wide, else nothing. */
  ghost predicate Preferred(rows: seq<CommandRow>, model: Option<Id>, version: Option<string>, answer: Option<Resolved>) {
    if model.Some? && SomeServes(rows, model, version) then BuiltFrom(rows, model, version, answer)
    else if SomeServes(rows, None, version) then BuiltFrom(rows, None, version, answer)
    else answer.None?
  }

  lemma {:induction false} FirstServingMeaning(rows: seq<CommandRow>, model: Option<Id>, version: Option<string>)
    ensures var r := FirstServing(rows, model, version);
            if r.Some? then r.value in rows && Suits(r.value, model, version) else !SomeServes(rows, model, version)
  {
    if rows != [] {
      FirstServingMeaning(rows[1..], model, version);
    }
  }

  lemma QueryPrefersInWindow(rows: seq<CommandRow>, model: Option<Id>, version: Option<string>)
    ensures Preferred(Window(rows), model, version, Query(rows, model, version))
  {
    FirstServingMeaning(Window(rows), model, version);
    FirstServingMeaning(Window(rows), None, version);
    assert forall r: CommandRow :: Carries(Build(r), r);
  }

  /** With at most eight active rows the preference is met. */
  lemma QueryPrefersInSmallTables(rows: seq<CommandRow>, model: Option<Id>, version: Option<string>)
    requires |rows| <= QUERY_LIMIT
    ensures Preferred(rows, model, version, Query(rows, model, version))
  {
    QueryPrefersInWindow(rows, model, version);
  }

  /** In any table: the limit defeats the preference exactly when it cuts off every row of the class that should win. */
  lemma QueryPrefersIff(rows: seq<CommandRow>, model: Option<Id>, version: Option<string>)
    requires forall i, j | 0 <= i < j < |rows| :: rows[i].id != rows[j].id
    ensures var window := Window(rows);
            Preferred(rows, model, version, Query(rows, model, version)) <==>
              if model.Some? && SomeServes(rows, model, version) then SomeServes(window, model, version)
              else SomeServes(rows, None, version) ==> SomeServes(window, None, version)
  {
    var window := Window(rows);
    var answer := Query(rows, model, version);
    QueryPrefersInWindow(rows, model, version);
    assert forall r :: r in window ==> r in rows;
    if model.Some? && SomeServes(rows, model, version) && !SomeServes(window, model, version) && answer.Some? {
      assert BuiltFrom(window, None, version, answer);
      var w :| w in window && Suits(w, None, version) && Carries(answer.value, w);
      forall r | r in rows && Suits(r, model, version)
        ensures !Carries(answer.value, r)
      {
        assert r != w;
      }
    }
  }

  /** Eight active rows that name a model hide every manufacturer-wide row. */
  lemma NamedRowsHideWideOnes(rows: seq<CommandRow>, table: set<CommandRow>, manufacturer: Id, key: string, version: Option<string>)
    requires IsListing(rows, table, manufacturer, key)
    requires |rows| >= 8 && rows[7].model.Some?
    ensures !SomeServes(Window(rows), None, version)
  {
    forall r | r in Window(rows)
      ensures r.model.Some?
    {
      var i :| 0 <= i < QUERY_LIMIT && rows[i] == r;
      if i < QUERY_LIMIT - 1 {
        assert NotAfter(rows[i].model, rows[QUERY_LIMIT - 1].model);
      }
    }
  }

  /** What the limit cuts off: rows for all models before rows that name one, and of those the ones with smaller ids. */
  lemma WindowKeepsGreatest(rows: seq<CommandRow>, table: set<CommandRow>, manufacturer: Id, key: string, kept: CommandRow, cut: CommandRow)
    requires IsListing(rows, table, manufacturer, key)
    requires kept in Window(rows) && cut in table && cut.manufacturer == manufacturer && cut.key == key && cut.active && cut !in Window(rows)
    ensures |Window(rows)| == 8
    ensures cut.model.None? || (kept.model.Some? && kept.model.value >= cut.model.value)
  {
    assert cut in rows;
    var i :| 0 <= i < |Window(rows)| && Window(rows)[i] == kept;
    var j :| 0 <= j < |rows| && rows[j] == cut;
    assert NotAfter(rows[i].model, rows[j].model);
  }

  /** Whatever the table's size, the answer is an active row of this key, for this model or for all models. */
  lemma QueryNeverForeign(rows: seq<CommandRow>, manufacturer: Id, key: string, model: Option<Id>, version: Option<string>)
    requires IsListed(rows, manufacturer, key)
    requires Query(rows, model, version).Some?
    ensures exists r :: && r in rows && r.active && r.manufacturer == manufacturer && r.key == key
                        && (r.model == model || r.model.None?)
                        && (r.version.None? || version.None? || r.version.value == version.value)
                        && Carries(Query(rows, model, version).value, r)
  {
    QueryPrefersInWindow(rows, model, version);
    assert forall r :: r in Window(rows) ==> r in rows;
  }

  method QueryNormalizedCommand(rows: seq<CommandRow>, model: Option<Id>, version: Option<string>)
    returns (answer: Option<Resolved>)
    ensures answer == Query(rows, model, version)
    ensures Preferred(Window(rows), model, version, answer)
  {
    QueryPrefersInWindow(rows, model, version);
    var window := Window(rows);
    if model.Some? {
      for i := 0 to |window|
        invariant FirstServing(window, model, version) == FirstServing(window[i..], model, version)
      {
        if window[i].model == model && VersionMatches(window[i].version, version) {
          return Some(Build(window[i]));
        }
      }
    }
    for i := 0 to |window|
      invariant FirstServing(window, None, version) == FirstServing(window[i..], None, version)
    {
      if window[i].model.None? && VersionMatches(window[i].version, version) {
        return Some(Build(window[i]));
      }
    }
    return None;
  }

  // ---------- Rendering ----------

  datatype Rendering =
    | Rendered(text: string)
    | MissingVariable(name: string)
    | Broken

  type Variables = map<string, string>

  function Render(template: seq<Piece>, vars: Variables): Rendering {
    if template == [] then Rendered("")
    else
      match template[0]
      case Malformed => Broken
      case Field(name) =>
        if name !in vars then MissingVariable(name) else Prefixed(vars[name], Render(template[1..], vars))
      case Text(text) => Prefixed(text, Render(template[1..], vars))
  }

  function Prefixed(text: string, r: Rendering): Rendering {
    if r.Rendered? then Rendered(text + r.text) else r
  }

  /** command_vars first, then the order's snapshot on top. */
  function Context(commandVars: Variables, snapshot: Variables): Variables {
    commandVars + snapshot
  }

  predicate Renderable(template: seq<Piece>, vars: Variables) {
    forall p | p in template :: !p.Malformed? && (p.Field? ==> p.name in vars)
  }

  lemma {:induction false} RendersIff(template: seq<Piece>, vars: Variables)
    ensures Render(template, vars).Rendered? <==> Renderable(template, vars)
  {
    if template != [] {
      RendersIff(template[1..], vars);
      assert template == [template[0]] + template[1..];
    }
  }

  /** What a piece stands for. */
  ghost predicate SpellsPiece(text: string, piece: Piece, vars: Variables) {
    match piece
    case Text(literal) => text == literal
    case Field(name) => name in vars && text == vars[name]
    case Malformed => false
  }

  function Joined(slices: seq<string>): string {
    if slices == [] then "" else slices[0] + Joined(slices[1..])
  }

  /** The text consists of these slices, and each is what its piece stands for. */
  ghost predicate SpelledBy(text: string, template: seq<Piece>, vars: Variables, slices: seq<string>) {
    && |slices| == |template| && Joined(slices) == text
    && forall i | 0 <= i < |template| :: SpellsPiece(slices[i], template[i], vars)
  }

  ghost predicate Spells(text: string, template: seq<Piece>, vars: Variables) {
    exists slices :: SpelledBy(text, template, vars, slices)
  }

  lemma {:induction false} RenderedSpells(template: seq<Piece>, vars: Variables) returns (slices: seq<string>)
    requires Render(template, vars).Rendered?
    ensures SpelledBy(Render(template, vars).text, template, vars, slices)
  {
    slices := [];
    if template != [] {
      var rest := RenderedSpells(template[1..], vars);
      slices := [if template[0].Text? then template[0].text else vars[template[0].name]] + rest;
      assert slices[1..] == rest;
    }
  }

  lemma {:induction false} SpellingIsRendered(template: seq<Piece>, vars: Variables, slices: seq<string>)
    requires SpelledBy(Joined(slices), template, vars, slices)
    ensures Render(template, vars) == Rendered(Joined(slices))
  {
    if template != [] {
      assert SpellsPiece(slices[0], template[0], vars);
      assert forall i | 0 <= i < |template| - 1 :: slices[1..][i] == slices[i + 1] && template[1..][i] == template[i + 1];
      SpellingIsRendered(template[1..], vars, slices[1..]);
    }
  }

  /** The rendered text is the one that the pieces spell, literal text as it is and each field as its variable's value. */
  lemma RenderSpells(template: seq<Piece>, vars: Variables, text: string)
    ensures Render(template, vars) == Rendered(text) <==> Spells(text, template, vars)
  {
    if Render(template, vars) == Rendered(text) {
      var slices := RenderedSpells(template, vars);
    }
    if slices :| SpelledBy(text, template, vars, slices) {
      SpellingIsRendered(template, vars, slices);
    }
  }

  /** The piece cannot be rendered. */
  predicate IsBad(piece: Piece, vars: Variables) {
    match piece
    case Text(_) => false
    case Field(name) => name !in vars
    case Malformed => true
  }

  /** The i-th piece is the first that cannot be rendered. */
  ghost predicate FirstBad(template: seq<Piece>, vars: Variables, i: nat) {
    i < |template| && IsBad(template[i], vars) && forall j | 0 <= j < i :: !IsBad(template[j], vars)
  }

  /** Rendering fails at the first piece that cannot be rendered: a missing variable, or a malformed field. */
  lemma {:induction false} RenderFails(template: seq<Piece>, vars: Variables, i: nat)
    requires FirstBad(template, vars, i)
    ensures Render(template, vars) == if template[i].Malformed? then Broken else MissingVariable(template[i].name)
  {
    if i > 0 {
      assert !IsBad(template[0], vars);
      assert forall j | 0 <= j < i :: template[1..][j] == template[j + 1];
      RenderFails(template[1..], vars, i - 1);
    }
  }

  lemma {:induction false} FindBad(template: seq<Piece>, vars: Variables) returns (i: nat)
    requires !Renderable(template, vars)
    ensures FirstBad(template, vars, i)
  {
    if IsBad(template[0], vars) {
      i := 0;
    } else {
      i := FindBad(template[1..], vars);
      assert forall j | 1 <= j <= i + 1 && j < |template| :: template[j] == template[1..][j - 1];
      i := i + 1;
    }
  }

  /** The variables of the one map lie over those of the other. */
  ghost predicate Overlaid(vars: Variables, under: Variables, over: Variables) {
    && (forall name :: name in vars <==> name in under || name in over)
    && (forall name | name in vars :: vars[name] == if name in over then over[name] else under[name])
  }

  lemma ContextOverlays(commandVars: Variables, snapshot: Variables)
    ensures forall vars :: vars == Context(commandVars, snapshot) <==> Overlaid(vars, commandVars, snapshot)
  {
  }

  // ---------- Cache-aside resolution ----------

  /** One run of the catalogue query: what it listed for a key, and when the answer was stored. */
  datatype Fetch = Fetch(key: CommandKey, rows: seq<CommandRow>, at: Time)

  function AnswerOf(f: Fetch): Option<Resolved> {
    Query(f.rows, f.key.model, f.key.version)
  }

  /** The writes of the cache are the answers of these queries, each stored at its own instant, and nothing else. */
  ghost predicate Fetched(log: seq<Write<CommandKey, Option<Resolved>>>, fetches: seq<Fetch>) {
    && |log| == |fetches|
    && forall i | 0 <= i < |log| ::
         && log[i] == Write.Put(map[fetches[i].key := AnswerOf(fetches[i])], fetches[i].at)
         && IsListed(fetches[i].rows, fetches[i].key.manufacturer, fetches[i].key.key)
  }

  /** The latest query for the key. */
  ghost function LastFetch(fetches: seq<Fetch>, key: CommandKey): (f: Option<Fetch>)
    ensures f.Some? ==> f.value in fetches && f.value.key == key
  {
    if fetches == [] then None
    else
      var n := |fetches| - 1;
      if fetches[n].key == key then Some(fetches[n]) else LastFetch(fetches[..n], key)
  }

  /** The latest query for the key is younger than the TTL. */
  ghost predicate Remembered(fetches: seq<Fetch>, ttl: Time, key: CommandKey, asked: Time) {
    LastFetch(fetches, key).Some? && asked < LastFetch(fetches, key).value.at + ttl
  }

  /** The instants at which a resolution asks the cache and, after a miss, stores the answer. */
  datatype Instants = Instants(asked: Time, stored: Time)

  /** The query that answers: the latest one while it is younger than the TTL, else a new one. */
  ghost function SourceOf(fetches: seq<Fetch>, ttl: Time, key: CommandKey, rows: seq<CommandRow>, when: Instants): Fetch {
    if Remembered(fetches, ttl, key, when.asked) then LastFetch(fetches, key).value else Fetch(key, rows, when.stored)
  }

  ghost function FetchesAfter(fetches: seq<Fetch>, ttl: Time, key: CommandKey, rows: seq<CommandRow>, when: Instants): seq<Fetch> {
    if Remembered(fetches, ttl, key, when.asked) then fetches else fetches + [Fetch(key, rows, when.stored)]
  }

  /** The readings of the clock that a resolution makes. */
  ghost function Readings(fetches: seq<Fetch>, ttl: Time, key: CommandKey, when: Instants): seq<Time> {
    if Remembered(fetches, ttl, key, when.asked) then [when.asked] else [when.asked, when.stored]
  }

  /** The cache answers exactly as the history of queries says. */
  lemma {:induction false} CacheRemembers(log: seq<Write<CommandKey, Option<Resolved>>>, fetches: seq<Fetch>, ttl: Time,
                                          key: CommandKey, asked: Time)
    requires Fetched(log, fetches)
    ensures LookupIn(log, ttl, key, asked) ==
            if Remembered(fetches, ttl, key, asked) then Hit(AnswerOf(LastFetch(fetches, key).value)) else Miss
  {
    if log != [] {
      var n := |log| - 1;
      assert log[n] == Write.Put(map[fetches[n].key := AnswerOf(fetches[n])], fetches[n].at);
      CacheRemembers(log[..n], fetches[..n], ttl, key, asked);
    }
  }

  /** The row that the query promises: preferred among the listed ones, active, of this key, compatible. */
  ghost predicate FromCatalogue(r: Resolved, rows: seq<CommandRow>, key: CommandKey) {
    exists row ::
      && row in Window(rows) && Carries(r, row) && Preferred(Window(rows), key.model, key.version, Some(r))
      && row.active && row.manufacturer == key.manufacturer && row.key == key.key
      && (row.model == key.model || row.model.None?)
      && (row.version.None? || key.version.None? || row.version.value == key.version.value)
  }

  lemma AnswerIsFromCatalogue(f: Fetch)
    requires IsListed(f.rows, f.key.manufacturer, f.key.key)
    ensures AnswerOf(f).Some? ==> FromCatalogue(AnswerOf(f).value, f.rows, f.key)
  {
    QueryPrefersInWindow(f.rows, f.key.model, f.key.version);
    assert forall r :: r in Window(f.rows) ==> r in f.rows;
  }

  /** Every source is young enough when it answers. */
  lemma SourceIsYoung(fetches: seq<Fetch>, ttl: Time, key: CommandKey, rows: seq<CommandRow>, when: Instants)
    requires ttl > 0.0 && when.asked <= when.stored
    ensures var source := SourceOf(fetches, ttl, key, rows, when);
            && source.key == key && when.asked < source.at + ttl
            && (source in fetches || source == Fetch(key, rows, when.stored))
  {
  }

  method ResolveNormalizedCommand(cache: CommandCache, clock: Clock, key: CommandKey, rows: seq<CommandRow>, ghost fetches: seq<Fetch>)
    returns (v: Option<Resolved>, ghost when: Instants)
    requires cache.Valid() && cache.seen <= clock.now && Fetched(cache.log, fetches)
    requires IsListed(rows, key.manufacturer, key.key)
    modifies cache, clock
    ensures cache.Valid() && cache.seen <= clock.now
    ensures v == AnswerOf(SourceOf(fetches, cache.ttl, key, rows, when))
    ensures Fetched(cache.log, FetchesAfter(fetches, cache.ttl, key, rows, when))
    ensures clock.trace == old(clock.trace) + Readings(fetches, cache.ttl, key, when)
    ensures old(clock.now) <= when.asked <= when.stored == clock.now
  {
    var now := clock.Read();
    ghost var asked := now;
    CacheRemembers(cache.log, fetches, cache.ttl, key, now);
    var cached := cache.Get(key, now);
    if cached.Hit? {
      return cached.value, Instants(asked, now);
    }
    v := QueryNormalizedCommand(rows, key.model, key.version);
    now := clock.Read();
    cache.Put(key, v, now);
    when := Instants(asked, now);
  }

  // ---------- A pass of resolutions ----------

  /** The history after resolving the first keys one after the other; listings[i] is what a query would list at the i-th. */
  ghost function PassFetches(fetches: seq<Fetch>, ttl: Time, keys: seq<CommandKey>, listings: seq<seq<CommandRow>>, whens: seq<Instants>)
    : seq<Fetch>
    requires |whens| <= |keys| == |listings|
    decreases |whens|
  {
    if whens == [] then fetches
    else
      var n := |whens| - 1;
      FetchesAfter(PassFetches(fetches, ttl, keys, listings, whens[..n]), ttl, keys[n], listings[n], whens[n])
  }

  ghost function PassSources(fetches: seq<Fetch>, ttl: Time, keys: seq<CommandKey>, listings: seq<seq<CommandRow>>, whens: seq<Instants>)
    : (sources: seq<Fetch>)
    requires |whens| <= |keys| == |listings|
    ensures |sources| == |whens|
    decreases |whens|
  {
    if whens == [] then []
    else
      var n := |whens| - 1;
      PassSources(fetches, ttl, keys, listings, whens[..n]) +
      [SourceOf(PassFetches(fetches, ttl, keys, listings, whens[..n]), ttl, keys[n], listings[n], whens[n])]
  }

  ghost function PassReadings(fetches: seq<Fetch>, ttl: Time, keys: seq<CommandKey>, listings: seq<seq<CommandRow>>, whens: seq<Instants>)
    : seq<Time>
    requires |whens| <= |keys| == |listings|
    decreases |whens|
  {
    if whens == [] then []
    else
      var n := |whens| - 1;
      PassReadings(fetches, ttl, keys, listings, whens[..n]) +
      Readings(PassFetches(fetches, ttl, keys, listings, whens[..n]), ttl, keys[n], whens[n])
  }

  lemma PassSnoc(fetches: seq<Fetch>, ttl: Time, keys: seq<CommandKey>, listings: seq<seq<CommandRow>>, whens: seq<Instants>, when: Instants)
    requires |whens| < |keys| == |listings|
    ensures var n := |whens|;
            var before := PassFetches(fetches, ttl, keys, listings, whens);
            && PassFetches(fetches, ttl, keys, listings, whens + [when]) == FetchesAfter(before, ttl, keys[n], listings[n], when)
            && PassSources(fetches, ttl, keys, listings, whens + [when]) ==
               PassSources(fetches, ttl, keys, listings, whens) + [SourceOf(before, ttl, keys[n], listings[n], when)]
            && PassReadings(fetches, ttl, keys, listings, whens + [when]) ==
               PassReadings(fetches, ttl, keys, listings, whens) + Readings(before, ttl, keys[n], when)
  {
    assert (whens + [when])[..|whens|] == whens;
  }

  /** The instants of a pass are in order. */
  ghost predicate InOrder(whens: seq<Instants>) {
    forall i | 0 <= i < |whens| :: whens[i].asked <= whens[i].stored
  }

  /** A source was listed for its key, and stored before the pass or by one of its resolutions from its own listing. */
  ghost predicate Known(source: Fetch, fetches: seq<Fetch>, keys: seq<CommandKey>, listings: seq<seq<CommandRow>>)
    requires |keys| == |listings|
  {
    source in fetches || exists j :: 0 <= j < |keys| && source.key == keys[j] && source.rows == listings[j]
  }

  lemma {:induction false} PassFetchesKnown(fetches: seq<Fetch>, ttl: Time, keys: seq<CommandKey>, listings: seq<seq<CommandRow>>,
                                            whens: seq<Instants>)
    requires |whens| <= |keys| == |listings|
    ensures forall f | f in PassFetches(fetches, ttl, keys, listings, whens) :: Known(f, fetches, keys, listings)
    decreases |whens|
  {
    if whens != [] {
      PassFetchesKnown(fetches, ttl, keys, listings, whens[..|whens| - 1]);
    }
  }

  /** In a pass every key is answered by a listing of its own, stored less than the TTL before it was asked for. */
  lemma {:induction false} PassMeaning(fetches: seq<Fetch>, ttl: Time, keys: seq<CommandKey>, listings: seq<seq<CommandRow>>,
                                       whens: seq<Instants>)
    requires |whens| <= |keys| == |listings| && ttl > 0.0 && InOrder(whens)
    ensures forall i | 0 <= i < |whens| ::
              var source := PassSources(fetches, ttl, keys, listings, whens)[i];
              source.key == keys[i] && whens[i].asked < source.at + ttl && Known(source, fetches, keys, listings)
    decreases |whens|
  {
    if whens != [] {
      var n := |whens| - 1;
      PassMeaning(fetches, ttl, keys, listings, whens[..n]);
      var before := PassFetches(fetches, ttl, keys, listings, whens[..n]);
      SourceIsYoung(before, ttl, keys[n], listings[n], whens[n]);
      PassFetchesKnown(fetches, ttl, keys, listings, whens[..n]);
    }
  }

  /** What one more resolution adds to a pass. */
  lemma PassTurn(fetches: seq<Fetch>, ttl: Time, keys: seq<CommandKey>, listings: seq<seq<CommandRow>>, whens: seq<Instants>,
                 when: Instants, base: seq<Time>)
    requires |whens| < |keys| == |listings| && InOrder(whens) && when.asked <= when.stored
    ensures var n, after := |whens|, whens + [when];
            var before := PassFetches(fetches, ttl, keys, listings, whens);
            && InOrder(after) && after[..n] == whens
            && PassFetches(fetches, ttl, keys, listings, after) == FetchesAfter(before, ttl, keys[n], listings[n], when)
            && PassSources(fetches, ttl, keys, listings, after)[..n] == PassSources(fetches, ttl, keys, listings, whens)
            && PassSources(fetches, ttl, keys, listings, after)[n] == SourceOf(before, ttl, keys[n], listings[n], when)
            && base + PassReadings(fetches, ttl, keys, listings, after) ==
               (base + PassReadings(fetches, ttl, keys, listings, whens)) + Readings(before, ttl, keys[n], when)
  {
    PassSnoc(fetches, ttl, keys, listings, whens, when);
  }

  /** Each listing is one that the query could return for the key. */
  ghost predicate ListedFor(keys: seq<CommandKey>, listings: seq<seq<CommandRow>>) {
    |listings| == |keys| && forall i | 0 <= i < |keys| :: IsListed(listings[i], keys[i].manufacturer, keys[i].key)
  }

  /** The next resolution of a pass; base is the clock's trace before the pass. */
  method ResolveNext(cache: CommandCache, clock: Clock, keys: seq<CommandKey>, listings: seq<seq<CommandRow>>, i: nat,
                     ghost fetches: seq<Fetch>, ghost whens: seq<Instants>, ghost base: seq<Time>)
    returns (v: Option<Resolved>, ghost whens': seq<Instants>)
    requires cache.Valid() && cache.seen <= clock.now && i == |whens| < |keys| && ListedFor(keys, listings) && InOrder(whens)
    requires Fetched(cache.log, PassFetches(fetches, cache.ttl, keys, listings, whens))
    requires clock.trace == base + PassReadings(fetches, cache.ttl, keys, listings, whens)
    modifies cache, clock
    ensures cache.Valid() && cache.seen <= clock.now && |whens'| == i + 1 && InOrder(whens') && whens'[..i] == whens
    ensures Fetched(cache.log, PassFetches(fetches, cache.ttl, keys, listings, whens'))
    ensures clock.trace == base + PassReadings(fetches, cache.ttl, keys, listings, whens')
    ensures PassSources(fetches, cache.ttl, keys, listings, whens')[..i] == PassSources(fetches, cache.ttl, keys, listings, whens)
    ensures v == AnswerOf(PassSources(fetches, cache.ttl, keys, listings, whens')[i])
  {
    ghost var when;
    v, when := ResolveNormalizedCommand(cache, clock, keys[i], listings[i], PassFetches(fetches, cache.ttl, keys, listings, whens));
    PassTurn(fetches, cache.ttl, keys, listings, whens, when, base);
    whens' := whens + [when];
  }

  function Answers(sources: seq<Fetch>): (answers: seq<Option<Resolved>>)
    ensures |answers| == |sources|
    ensures forall i | 0 <= i < |sources| :: answers[i] == AnswerOf(sources[i])
  {
    if sources == [] then [] else Answers(sources[..|sources| - 1]) + [AnswerOf(sources[|sources| - 1])]
  }

  lemma AnswersSnoc(sources: seq<Fetch>, source: Fetch)
    ensures Answers(sources + [source]) == Answers(sources) + [AnswerOf(source)]
  {
    assert (sources + [source])[..|sources|] == sources;
  }

  // ---------- Planning ----------

  datatype StepDef = StepDef(stepKey: string, commandKey: string)

  datatype Template = Template(
    active: bool, manufacturer: Id, version: Option<string>, required: seq<string>, steps: seq<StepDef>,
    rollbackMap: map<string, string>, commandVars: Variables)

  /** What RawTemplate's validators guarantee of a stored template. */
  ghost predicate IsValidTemplate(t: Template) {
    && t.steps != []
    && (forall i | 0 <= i < |t.steps| :: t.steps[i].stepKey != "")
    && (forall i, j | 0 <= i < j < |t.steps| :: t.steps[i].stepKey != t.steps[j].stepKey)
    && (forall k | k in t.rollbackMap :: exists i :: 0 <= i < |t.steps| && t.steps[i].stepKey == k)
  }

  datatype Command = Command(commandKey: string, text: string, timeoutMs: int)

  datatype Plan =
    | Plan(commands: seq<Command>)
    | Invalid                        // _ValidationFailure
    | Crashed                        // any other exception

  /** One step: what its command key resolves to, rendered. */
  function PlanStep(commandKey: string, lookup: Option<Resolved>, vars: Variables): Plan {
    match lookup
    case None => Invalid
    case Some(r) =>
      match Render(r.template, vars)
      case Rendered(text) => Plan([Command(commandKey, text, r.timeoutMs)])
      case MissingVariable(_) => Invalid
      case Broken => Crashed
  }

  /** The steps in order, stopping at the first that fails; lookups[i] is what the i-th resolution answered. */
  function BuildPlan(steps: seq<StepDef>, lookups: seq<Option<Resolved>>, vars: Variables): Plan
    requires |lookups| == |steps|
  {
    if steps == [] then Plan([])
    else
      var n := |steps| - 1;
      var front := BuildPlan(steps[..n], lookups[..n], vars);
      if !front.Plan? then front
      else
        var last := PlanStep(steps[n].commandKey, lookups[n], vars);
        if last.Plan? then Plan(front.commands + last.commands) else last
  }

  /** The command has this key, the text that the row's template spells, and the row's timeout. */
  ghost predicate RendersAs(c: Command, commandKey: string, r: Resolved, vars: Variables) {
    c.commandKey == commandKey && Spells(c.text, r.template, vars) && c.timeoutMs == r.timeoutMs
  }

  lemma PlanStepMeaning(commandKey: string, lookup: Option<Resolved>, vars: Variables)
    ensures PlanStep(commandKey, lookup, vars).Plan? <==> lookup.Some? && Renderable(lookup.value.template, vars)
    ensures PlanStep(commandKey, lookup, vars).Plan? ==>
              && |PlanStep(commandKey, lookup, vars).commands| == 1
              && RendersAs(PlanStep(commandKey, lookup, vars).commands[0], commandKey, lookup.value, vars)
  {
    if lookup.Some? {
      RendersIff(lookup.value.template, vars);
      if Renderable(lookup.value.template, vars) {
        RenderSpells(lookup.value.template, vars, Render(lookup.value.template, vars).text);
      }
    }
  }

  lemma {:induction false} PlanReady(steps: seq<StepDef>, lookups: seq<Option<Resolved>>, vars: Variables)
    requires |lookups| == |steps|
    ensures BuildPlan(steps, lookups, vars).Plan? <==>
            forall i | 0 <= i < |steps| :: lookups[i].Some? && Renderable(lookups[i].value.template, vars)
  {
    if steps != [] {
      var n := |steps| - 1;
      PlanReady(steps[..n], lookups[..n], vars);
      PlanStepMeaning(steps[n].commandKey, lookups[n], vars);
      assert forall i | 0 <= i < n :: lookups[..n][i] == lookups[i];
    }
  }

  lemma {:induction false} PlanCommands(steps: seq<StepDef>, lookups: seq<Option<Resolved>>, vars: Variables)
    requires |lookups| == |steps| && BuildPlan(steps, lookups, vars).Plan?
    requires forall i | 0 <= i < |steps| :: lookups[i].Some?
    ensures var commands := BuildPlan(steps, lookups, vars).commands;
            && |commands| == |steps|
            && forall i | 0 <= i < |steps| :: RendersAs(commands[i], steps[i].commandKey, lookups[i].value, vars)
  {
    if steps != [] {
      var n := |steps| - 1;
      assert forall i | 0 <= i < n :: lookups[..n][i] == lookups[i] && steps[..n][i] == steps[i];
      PlanCommands(steps[..n], lookups[..n], vars);
      PlanStepMeaning(steps[n].commandKey, lookups[n], vars);
    }
  }

  /** A plan exists exactly when every step resolves and renders, and then its i-th command is the i-th step's. */
  lemma PlanMeaning(steps: seq<StepDef>, lookups: seq<Option<Resolved>>, vars: Variables)
    requires |lookups| == |steps|
    ensures BuildPlan(steps, lookups, vars).Plan? <==>
            forall i | 0 <= i < |steps| :: lookups[i].Some? && Renderable(lookups[i].value.template, vars)
    ensures BuildPlan(steps, lookups, vars).Plan? ==>
            var commands := BuildPlan(steps, lookups, vars).commands;
            && |commands| == |steps|
            && forall i | 0 <= i < |steps| :: RendersAs(commands[i], steps[i].commandKey, lookups[i].value, vars)
  {
    PlanReady(steps, lookups, vars);
    if BuildPlan(steps, lookups, vars).Plan? {
      PlanCommands(steps, lookups, vars);
    }
  }

  /** The i-th step is the first that cannot be planned: nothing answers its key, or what answers does not render. */
  ghost predicate StopsAt(lookups: seq<Option<Resolved>>, vars: Variables, i: nat) {
    && i < |lookups| && (lookups[i].None? || !Renderable(lookups[i].value.template, vars))
    && forall j | 0 <= j < i :: lookups[j].Some? && Renderable(lookups[j].value.template, vars)
  }

  /** The step fails validation: it is unresolved, or the first piece that cannot be rendered is a missing variable. */
  ghost predicate FailsValidation(lookup: Option<Resolved>, vars: Variables) {
    lookup.None? || exists k: nat :: FirstBad(lookup.value.template, vars, k) && lookup.value.template[k].Field?
  }

  lemma StepStops(commandKey: string, lookup: Option<Resolved>, vars: Variables)
    requires lookup.None? || !Renderable(lookup.value.template, vars)
    ensures PlanStep(commandKey, lookup, vars) == if FailsValidation(lookup, vars) then Invalid else Crashed
  {
    if lookup.Some? {
      var k := FindBad(lookup.value.template, vars);
      RenderFails(lookup.value.template, vars, k);
    }
  }

  /** The first step that cannot be planned decides between a refusal and an error. */
  lemma {:induction false} PlanStops(steps: seq<StepDef>, lookups: seq<Option<Resolved>>, vars: Variables, i: nat)
    requires |lookups| == |steps| && StopsAt(lookups, vars, i)
    ensures BuildPlan(steps, lookups, vars) == if FailsValidation(lookups[i], vars) then Invalid else Crashed
  {
    var n := |steps| - 1;
    assert forall j | 0 <= j < n :: lookups[..n][j] == lookups[j];
    if i < n {
      PlanStops(steps[..n], lookups[..n], vars, i);
    } else {
      PlanReady(steps[..n], lookups[..n], vars);
      StepStops(steps[n].commandKey, lookups[n], vars);
    }
  }

  /** step_key_by_order: positions count from 1. */
  function StepKeys(steps: seq<StepDef>): map<nat, string> {
    if steps == [] then map[]
    else StepKeys(steps[..|steps| - 1])[|steps| := steps[|steps| - 1].stepKey]
  }

  lemma {:induction false} StepKeysDomain(steps: seq<StepDef>)
    ensures forall i: nat :: i in StepKeys(steps) <==> 1 <= i <= |steps|
    ensures forall i: nat | i in StepKeys(steps) :: StepKeys(steps)[i] == steps[i - 1].stepKey
  {
    if steps != [] {
      StepKeysDomain(steps[..|steps| - 1]);
    }
  }

  /** For a valid template the map is injective: positions and step keys determine each other. */
  lemma StepKeysInjective(t: Template)
    requires IsValidTemplate(t)
    ensures forall i: nat :: i in StepKeys(t.steps) <==> 1 <= i <= |t.steps|
    ensures forall i: nat, j: nat | i in StepKeys(t.steps) && j in StepKeys(t.steps) ::
              StepKeys(t.steps)[i] == StepKeys(t.steps)[j] ==> i == j
  {
    StepKeysDomain(t.steps);
  }

  function KeyFor(t: Template, model: Option<Id>, commandKey: string): CommandKey {
    CommandKey(t.manufacturer, model, commandKey, t.version)
  }

  /** The catalogue keys of the steps. */
  function PlanKeys(t: Template, model: Option<Id>): (keys: seq<CommandKey>)
    ensures |keys| == |t.steps|
    ensures forall i | 0 <= i < |t.steps| :: keys[i] == KeyFor(t, model, t.steps[i].commandKey)
  {
    seq(|t.steps|, i requires 0 <= i < |t.steps| => KeyFor(t, model, t.steps[i].commandKey))
  }

  /** The plan of the first steps, given the query that answered each. */
  function PlanFrom(steps: seq<StepDef>, sources: seq<Fetch>, vars: Variables): Plan
    requires |sources| <= |steps|
    decreases |sources|
  {
    if sources == [] then Plan([])
    else
      var n := |sources| - 1;
      PlanJoin(PlanFrom(steps, sources[..n], vars), PlanStep(steps[n].commandKey, AnswerOf(sources[n]), vars))
  }

  function PlanJoin(front: Plan, last: Plan): Plan {
    if !front.Plan? then front else if last.Plan? then Plan(front.commands + last.commands) else last
  }

  lemma PlanFromSnoc(steps: seq<StepDef>, sources: seq<Fetch>, source: Fetch, vars: Variables)
    requires |sources| < |steps|
    ensures PlanFrom(steps, sources + [source], vars) ==
            PlanJoin(PlanFrom(steps, sources, vars), PlanStep(steps[|sources|].commandKey, AnswerOf(source), vars))
  {
    assert (sources + [source])[..|sources|] == sources;
  }

  lemma BuildPlanSnoc(steps: seq<StepDef>, step: StepDef, lookups: seq<Option<Resolved>>, lookup: Option<Resolved>, vars: Variables)
    requires |lookups| == |steps|
    ensures BuildPlan(steps + [step], lookups + [lookup], vars) ==
            PlanJoin(BuildPlan(steps, lookups, vars), PlanStep(step.commandKey, lookup, vars))
  {
    assert (steps + [step])[..|steps|] == steps && (lookups + [lookup])[..|lookups|] == lookups;
  }

  lemma {:induction false} PlanFromIsBuildPlan(steps: seq<StepDef>, sources: seq<Fetch>, vars: Variables)
    requires |sources| <= |steps|
    ensures PlanFrom(steps, sources, vars) == BuildPlan(steps[..|sources|], Answers(sources), vars)
    decreases |sources|
  {
    if sources != [] {
      var n := |sources| - 1;
      var front := sources[..n];
      assert sources == front + [sources[n]] && steps[..n + 1] == steps[..n] + [steps[n]];
      PlanFromIsBuildPlan(steps, front, vars);
      AnswersSnoc(front, sources[n]);
      PlanFromSnoc(steps, front, sources[n], vars);
      BuildPlanSnoc(steps[..n], steps[n], Answers(front), AnswerOf(sources[n]), vars);
    }
  }

  lemma StepKeysSnoc(steps: seq<StepDef>, n: nat)
    requires n < |steps|
    ensures StepKeys(steps[..n + 1]) == StepKeys(steps[..n])[n + 1 := steps[n].stepKey]
  {
    assert steps[..n + 1][..n] == steps[..n];
  }

  /** The first steps are planned, one command each. */
  ghost predicate PlannedTo(steps: seq<StepDef>, sources: seq<Fetch>, commands: seq<Command>, keys: map<nat, string>, vars: Variables) {
    |sources| <= |steps| && PlanFrom(steps, sources, vars) == Plan(commands) && keys == StepKeys(steps[..|sources|])
  }

  lemma PlannedNone(steps: seq<StepDef>, vars: Variables)
    ensures PlannedTo(steps, [], [], map[], vars)
  {
  }

  /** One more source makes one more step of the plan. */
  lemma PlanGrows(steps: seq<StepDef>, before: seq<Fetch>, after: seq<Fetch>, commands: seq<Command>, keys: map<nat, string>,
                  v: Option<Resolved>, vars: Variables)
    requires |before| + 1 == |after| <= |steps| && after[..|before|] == before && v == AnswerOf(after[|before|])
    requires PlannedTo(steps, before, commands, keys, vars)
    ensures var n := |before|;
            var planned := PlanStep(steps[n].commandKey, v, vars);
            if planned.Plan? then PlannedTo(steps, after, commands + planned.commands, keys[n + 1 := steps[n].stepKey], vars)
            else PlanFrom(steps, after, vars) == planned
  {
    assert after == before + [after[|before|]];
    PlanFromSnoc(steps, before, after[|before|], vars);
    StepKeysSnoc(steps, |before|);
  }

  /** The planning loop of phase 1: as many steps are resolved as there are instants. */
  method PlanSteps(cache: CommandCache, clock: Clock, t: Template, model: Option<Id>, vars: Variables, listings: seq<seq<CommandRow>>,
                   ghost fetches: seq<Fetch>)
    returns (plan: Plan, keys: map<nat, string>, ghost whens: seq<Instants>)
    requires cache.Valid() && cache.seen <= clock.now && Fetched(cache.log, fetches)
    requires ListedFor(PlanKeys(t, model), listings)
    modifies cache, clock
    ensures cache.Valid() && cache.seen <= clock.now
    ensures |whens| <= |t.steps| && InOrder(whens)
    ensures plan == PlanFrom(t.steps, PassSources(fetches, cache.ttl, PlanKeys(t, model), listings, whens), vars)
    ensures plan.Plan? ==> |whens| == |t.steps| && keys == StepKeys(t.steps)
    ensures Fetched(cache.log, PassFetches(fetches, cache.ttl, PlanKeys(t, model), listings, whens))
    ensures clock.trace == old(clock.trace) + PassReadings(fetches, cache.ttl, PlanKeys(t, model), listings, whens)
  {
    var commands: seq<Command> := [];
    var catalogueKeys := PlanKeys(t, model);
    keys, whens := map[], [];
    ghost var base := clock.trace;
    PlannedNone(t.steps, vars);
    for i := 0 to |t.steps|
      invariant cache.Valid() && cache.seen <= clock.now && |whens| == i && InOrder(whens)
      invariant PlannedTo(t.steps, PassSources(fetches, cache.ttl, catalogueKeys, listings, whens), commands, keys, vars)
      invariant Fetched(cache.log, PassFetches(fetches, cache.ttl, catalogueKeys, listings, whens))
      invariant clock.trace == base + PassReadings(fetches, cache.ttl, catalogueKeys, listings, whens)
    {
      ghost var before, earlier := PassSources(fetches, cache.ttl, catalogueKeys, listings, whens), keys;
      keys := keys[i + 1 := t.steps[i].stepKey];
      var v;
      v, whens := ResolveNext(cache, clock, catalogueKeys, listings, i, fetches, whens, base);
      PlanGrows(t.steps, before, PassSources(fetches, cache.ttl, catalogueKeys, listings, whens), commands, earlier, v, vars);
      var planned := PlanStep(t.steps[i].commandKey, v, vars);
      if !planned.Plan? {
        return planned, keys, whens;
      }
      commands := commands + planned.commands;
    }
    assert t.steps[..|t.steps|] == t.steps;
    plan := Plan(commands);
  }

  /** What a ready plan consists of: the i-th command renders a preferred catalogue row listed less than a TTL before. */
  lemma PlannedFromCatalogue(t: Template, model: Option<Id>, vars: Variables, listings: seq<seq<CommandRow>>, fetches: seq<Fetch>,
                             ttl: Time, whens: seq<Instants>, i: nat)
    returns (source: Fetch)
    requires ttl > 0.0 && |whens| == |t.steps| == |listings| && InOrder(whens) && i < |t.steps|
    requires ListedFor(PlanKeys(t, model), listings)
    requires forall f | f in fetches :: IsListed(f.rows, f.key.manufacturer, f.key.key)
    requires PlanFrom(t.steps, PassSources(fetches, ttl, PlanKeys(t, model), listings, whens), vars).Plan?
    ensures var commands := PlanFrom(t.steps, PassSources(fetches, ttl, PlanKeys(t, model), listings, whens), vars).commands;
            var key := CommandKey(t.manufacturer, model, t.steps[i].commandKey, t.version);
            && source.key == key && whens[i].asked < source.at + ttl && Known(source, fetches, PlanKeys(t, model), listings)
            && AnswerOf(source).Some? && FromCatalogue(AnswerOf(source).value, source.rows, key)
            && |commands| == |t.steps| && RendersAs(commands[i], key.key, AnswerOf(source).value, vars)
  {
    var keys := PlanKeys(t, model);
    var sources := PassSources(fetches, ttl, keys, listings, whens);
    source := sources[i];
    PassSourceIsListed(fetches, ttl, keys, listings, whens, i);
    AnswerIsFromCatalogue(source);
    PlannedFrom(t.steps, sources, vars, i);
  }

  /** A source of a pass lists rows of its own key. */
  lemma PassSourceIsListed(fetches: seq<Fetch>, ttl: Time, keys: seq<CommandKey>, listings: seq<seq<CommandRow>>, whens: seq<Instants>, i: nat)
    requires ttl > 0.0 && i < |whens| <= |keys| && InOrder(whens) && ListedFor(keys, listings)
    requires forall f | f in fetches :: IsListed(f.rows, f.key.manufacturer, f.key.key)
    ensures var source := PassSources(fetches, ttl, keys, listings, whens)[i];
            && source.key == keys[i] && whens[i].asked < source.at + ttl && Known(source, fetches, keys, listings)
            && IsListed(source.rows, source.key.manufacturer, source.key.key)
  {
    PassMeaning(fetches, ttl, keys, listings, whens);
    var source := PassSources(fetches, ttl, keys, listings, whens)[i];
    if source !in fetches {
      var j :| 0 <= j < |keys| && source.key == keys[j] && source.rows == listings[j];
      assert IsListed(listings[j], keys[j].manufacturer, keys[j].key);
    }
  }

  /** The i-th command of a complete plan renders what the i-th source answers. */
  lemma PlannedFrom(steps: seq<StepDef>, sources: seq<Fetch>, vars: Variables, i: nat)
    requires i < |sources| == |steps| && PlanFrom(steps, sources, vars).Plan?
    ensures var commands := PlanFrom(steps, sources, vars).commands;
            && AnswerOf(sources[i]).Some? && |commands| == |steps|
            && RendersAs(commands[i], steps[i].commandKey, AnswerOf(sources[i]).value, vars)
  {
    PlanFromIsBuildPlan(steps, sources, vars);
    assert steps[..|sources|] == steps;
    PlanMeaning(steps, Answers(sources), vars);
  }
}
