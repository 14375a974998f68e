/** No stuck notes: a note and its release travel together. */
module RouterNotes {
  import opened Midi
  import opened Filters
  import opened Routing
  import opened RouterHands
  import opened RouterPlans

  // --- Declarative configurations ---

  /** No user code, and no filter that separates note-on from note-off. */
  ghost predicate Declarative(rules: Rules) {
    rules.callback.None? && (rules.filter.Some? ==> rules.filter.value.NotesAlike())
  }

  ghost predicate AllDeclarative(cfg: Config) {
    && cfg.Sized()
    && (forall i :: 0 <= i < |cfg.stages| ==> Declarative(cfg.stages[i]))
    && (forall i :: 0 <= i < |cfg.routes| ==> Declarative(cfg.routes[i].rules))
  }

  /** Both dropped, or both kept as the same note. */
  ghost predicate StagedAlike(a: Staged, b: Staged) {
    a.Kept? == b.Kept? && (a.Kept? ==> SameNote(a.m, b.m))
  }

  lemma StageKeepsPairs(rules: Rules, a: Message, b: Message)
    requires Declarative(rules) && SameNote(a, b)
    ensures StagedAlike(RunStage(rules, a), RunStage(rules, b))
  {
    if rules.filter.Some? { FilterKeepsPairs(rules.filter.value, a, b); }
    if rules.transform.Some? { TransformKeepsPairs(rules.transform.value, a, b); }
    hide Transform.Apply, Filter.Accepts, SameNote;
  }

  /** A stage without user code keeps a release a release. */
  lemma StageKeepsReleases(rules: Rules, m: Message)
    requires rules.callback.None? && IsRelease(m)
    ensures var staged := RunStage(rules, m); staged.Kept? ==> IsRelease(staged.m)
  {
    if rules.transform.Some? && rules.transform.value.Apply(m).Some? {
      TransformKeepsReleases(rules.transform.value, m);
    }
    hide Transform.Apply, Filter.Accepts;
  }

  // --- What reaches an output of a pair ---

  /** The same notes, one by one. */
  ghost predicate NotesAlike(ms: seq<Message>, ns: seq<Message>) {
    |ms| == |ns| && forall i :: 0 <= i < |ms| ==> SameNote(ms[i], ns[i])
  }

  lemma FinalAlike(rules: Rules, a: Message, b: Message)
    requires Declarative(rules) && SameNote(a, b)
    ensures NotesAlike(Final(INVALID, rules, a), Final(INVALID, rules, b))
  {
    StageKeepsPairs(rules, a, b);
    hide RunStage, SameNote;
  }

  lemma AlongAlike(cfg: Config, route: Route, a: Message, b: Message, o: Output)
    requires AllDeclarative(cfg) && Declarative(route.rules) && SameNote(a, b)
    ensures NotesAlike(Along(INVALID, cfg, route, a, o), Along(INVALID, cfg, route, b, o))
  {
    hide RunStage, Final, Leads, Declarative;
    StageKeepsPairs(route.rules, a, b);
    var x, y := RunStage(route.rules, a), RunStage(route.rules, b);
    if x.Kept? { FinalAlike(cfg.stages[o], x.m, y.m); }
  }

  lemma {:induction false} ImagesAlike(cfg: Config, a: Message, b: Message, o: Output, n: nat)
    requires AllDeclarative(cfg) && n <= |cfg.routes| && SameNote(a, b)
    ensures NotesAlike(Images(INVALID, cfg, a, o, n), Images(INVALID, cfg, b, o, n))
  {
    if n > 0 {
      ImagesAlike(cfg, a, b, o, n - 1);
      AlongAlike(cfg, cfg.routes[n - 1], a, b, o);
    }
    hide Along, SameNote, Declarative;
  }

  lemma ReachingAlike(cfg: Config, a: Message, b: Message, o: Output)
    requires AllDeclarative(cfg) && SameNote(a, b)
    ensures NotesAlike(Reaching(INVALID, cfg, a, o), Reaching(INVALID, cfg, b, o))
  {
    if a.port < MAX_PORTS {
      StageKeepsPairs(cfg.stages[a.port], a, b);
      var x, y := RunStage(cfg.stages[a.port], a), RunStage(cfg.stages[a.port], b);
      if x.Kept? { ImagesAlike(cfg, x.m, y.m, o, |cfg.routes|); }
    }
    hide RunStage, Images;
  }

  // --- A release is delivered as one ---

  ghost predicate AllReleases(ms: seq<Message>) {
    forall i :: 0 <= i < |ms| ==> IsRelease(ms[i])
  }

  lemma AlongReleases(cfg: Config, route: Route, m: Message, o: Output)
    requires AllDeclarative(cfg) && Declarative(route.rules) && IsRelease(m)
    ensures AllReleases(Along(INVALID, cfg, route, m, o))
  {
    hide RunStage, IsRelease, Leads;
    StageKeepsReleases(route.rules, m);
    var x := RunStage(route.rules, m);
    if x.Kept? { StageKeepsReleases(cfg.stages[o], x.m); }
  }

  lemma {:induction false} ImagesReleases(cfg: Config, m: Message, o: Output, n: nat)
    requires AllDeclarative(cfg) && n <= |cfg.routes| && IsRelease(m)
    ensures AllReleases(Images(INVALID, cfg, m, o, n))
  {
    if n > 0 {
      ImagesReleases(cfg, m, o, n - 1);
      AlongReleases(cfg, cfg.routes[n - 1], m, o);
    }
    hide Along, IsRelease, Declarative;
  }

  lemma ReachingReleases(cfg: Config, m: Message, o: Output)
    requires AllDeclarative(cfg) && IsRelease(m)
    ensures AllReleases(Reaching(INVALID, cfg, m, o))
  {
    if m.port < MAX_PORTS {
      StageKeepsReleases(cfg.stages[m.port], m);
      var x := RunStage(cfg.stages[m.port], m);
      if x.Kept? { ImagesReleases(cfg, x.m, o, |cfg.routes|); }
    }
    hide RunStage, Images, IsRelease;
  }

  /** Under one configuration an output in no stream is handed the same notes, one
      by one, for a note and for its release, and all it is handed for the release
      are releases: no route, filter or transform can deliver the one and lose the
      other, or make it sound again. Sink answers and the rest of the state play
      no part. */
  lemma NoStuckNotes(s: State, t: State, cfg: Config, sinksOn: Sinks, sinksOff: Sinks,
                     on: Message, off: Message, o: Output)
    requires s.Sized() && t.Sized() && s.owner[o] == INVALID && t.owner[o] == INVALID
    requires AllDeclarative(cfg) && SameNote(on, off)
    ensures exists notes: seq<Message>, releases: seq<Message> ::
              && HandedOn(s.logs[o], Dispatch(s, cfg, sinksOn, on).logs[o], notes)
              && HandedOn(t.logs[o], Dispatch(t, cfg, sinksOff, off).logs[o], releases)
              && NotesAlike(notes, releases) && (IsRelease(off) ==> AllReleases(releases))
  {
    DispatchHands(s, cfg, sinksOn, on, o);
    DispatchHands(t, cfg, sinksOff, off, o);
    ReachingAlike(cfg, on, off, o);
    if IsRelease(off) { ReachingReleases(cfg, off, o); }
    hide Dispatch, HandedOn, Reaching, NotesAlike, AllReleases, IsRelease;
  }
}
