/** A GitHub Actions workflow definition (workflow syntax for GitHub Actions)
    and its decoder. The `event` and `job` modules are not part of this model:
    their decoders are parameters (`Submodules`). */
module Workflows {
  import opened Values
  import opened Decoding
  import opened Common

  /** What the `event` and `job` modules provide: the names a bare event may
      have, a decoder for the mapping form of `on`, and decoders for the two
      kinds of job. */
  datatype Submodules<EV, NJ, RJ> = Submodules(
    eventNames: set<string>,
    events: Value -> Result<EV>,
    normalJob: Value -> Result<NJ>,
    reusableJob: Value -> Result<RJ>)

  /** The triggering condition or conditions of a workflow: one event name,
      a list of event names, or a mapping of events to their configuration. */
  datatype Trigger<EV> = BareEvent(event: string) | BareEvents(events: seq<string>) | Events(config: EV)

  datatype RunDefaults = RunDefaults(shell: Option<string>, workingDirectory: Option<string>)

  datatype Defaults = Defaults(run: Option<RunDefaults>)

  datatype Concurrency = Concurrency(group: string, cancelInProgress: BoE)

  datatype Job<NJ, RJ> = NormalJob(normal: NJ) | ReusableWorkflowCallJob(reusable: RJ)

  /** A single GitHub Actions workflow. */
  datatype Workflow<EV, NJ, RJ> = Workflow(
    name: Option<string>,
    runName: Option<string>,
    on: Trigger<EV>,
    permissions: Permissions,
    env: map<string, EnvValue>,
    defaults: Option<Defaults>,
    concurrency: Option<Concurrency>,
    jobs: map<string, Job<NJ, RJ>>)

  /** The keys a workflow mapping is read under: the field names in kebab-case. */
  const WorkflowKeys: set<string> :=
    {"name", "run-name", "on", "permissions", "env", "defaults", "concurrency", "jobs"}

  // ---------------------------------------------------------------------
  // Triggers
  // ---------------------------------------------------------------------

  /** A bare event: a string scalar that is one of the event names. */
  function DecodeBareEvent(names: set<string>, v: Value): (r: Result<string>)
    ensures r.Ok? <==> v.Str? && v.s in names
    ensures r.Ok? ==> r.value == v.s
  {
    if !v.Str? then Err(InvalidType(KindOf(v), "enum BareEvent"))
    else if v.s in names then Ok(v.s)
    else Err(UnknownVariant(v.s, names))
  }

  /** Untagged: `BareEvent`, then `BareEvents`, then `Events`. */
  function DecodeTrigger<EV, NJ, RJ>(sub: Submodules<EV, NJ, RJ>, v: Value): (r: Result<Trigger<EV>>)
    ensures v.Str? && v.s in sub.eventNames ==> r == Ok(BareEvent(v.s))
    ensures v.Sequence? && (forall i | 0 <= i < |v.items| :: v.items[i].Str? && v.items[i].s in sub.eventNames) ==>
      r.Ok? && r.value.BareEvents? && |r.value.events| == |v.items| &&
      forall i | 0 <= i < |v.items| :: r.value.events[i] == v.items[i].s
    ensures !(v.Str? && v.s in sub.eventNames) &&
            !(v.Sequence? && forall i | 0 <= i < |v.items| :: v.items[i].Str? && v.items[i].s in sub.eventNames) ==>
      r == match sub.events(v) case Ok(e) => Ok(Events(e)) case Err(_) => Err(NoVariantMatched("Trigger"))
  {
    var names := sub.eventNames;
    var bare := (x: Value) => DecodeBareEvent(names, x);
    var asBareEvent := (x: Value) =>
      match DecodeBareEvent(names, x) case Ok(e) => Ok(BareEvent(e)) case Err(e) => Err(e);
    var asBareEvents := (x: Value) =>
      match DecodeSequence(x, bare) case Ok(es) => Ok(BareEvents(es)) case Err(e) => Err(e);
    var asEvents := (x: Value) =>
      match sub.events(x) case Ok(e) => Ok(Events(e)) case Err(e) => Err(e);
    var variants := [asBareEvent, asBareEvents, asEvents];
    assert variants[0](v) == asBareEvent(v) && variants[1](v) == asBareEvents(v) && variants[2](v) == asEvents(v);
    Untagged("Trigger", v, variants)
  }

  // ---------------------------------------------------------------------
  // Records inside a workflow
  // ---------------------------------------------------------------------

  /** The value of an optional string field is a string or null, or the key is absent. */
  predicate StringOrAbsent(m: map<string, Value>, key: string) {
    key !in m || m[key].Null? || m[key].Str?
  }

  /** The string an optional field holds, if it holds one. */
  predicate HoldsText(m: map<string, Value>, key: string, o: Option<string>) {
    (o.Some? <==> key in m && !m[key].Null?) && (o.Some? ==> m[key] == Str(o.value))
  }

  function DecodeRunDefaults(v: Value): (r: Result<RunDefaults>)
    ensures !v.Mapping? ==> r == Err(InvalidType(KindOf(v), "struct RunDefaults"))
    ensures v.Mapping? ==>
      (r.Ok? <==> StringOrAbsent(v.entries, "shell") && StringOrAbsent(v.entries, "working-directory"))
    ensures r.Ok? ==> HoldsText(v.entries, "shell", r.value.shell)
    ensures r.Ok? ==> HoldsText(v.entries, "working-directory", r.value.workingDirectory)
  {
    if !v.Mapping? then Err(InvalidType(KindOf(v), "struct RunDefaults"))
    else
      var m := v.entries;
      var shell :- OptionalField(m, "shell", DecodeString);
      var workingDirectory :- OptionalField(m, "working-directory", DecodeString);
      Ok(RunDefaults(shell, workingDirectory))
  }

  function DecodeDefaults(v: Value): (r: Result<Defaults>)
    ensures !v.Mapping? ==> r == Err(InvalidType(KindOf(v), "struct Defaults"))
    ensures v.Mapping? ==> (r.Ok? <==>
      "run" !in v.entries || v.entries["run"].Null? || DecodeRunDefaults(v.entries["run"]).Ok?)
    ensures r.Ok? ==> (r.value.run.Some? <==> "run" in v.entries && !v.entries["run"].Null?)
    ensures r.Ok? && r.value.run.Some? ==> DecodeRunDefaults(v.entries["run"]) == Ok(r.value.run.value)
  {
    if !v.Mapping? then Err(InvalidType(KindOf(v), "struct Defaults"))
    else
      var run :- OptionalField(v.entries, "run", DecodeRunDefaults);
      Ok(Defaults(run))
  }

  /** `group` is required; an absent `cancel-in-progress` is `BoE::default()`. */
  function DecodeConcurrency(v: Value): (r: Result<Concurrency>)
    ensures !v.Mapping? ==> r == Err(InvalidType(KindOf(v), "struct Concurrency"))
    ensures v.Mapping? ==> (r.Ok? <==>
      "group" in v.entries && v.entries["group"].Str? &&
      ("cancel-in-progress" !in v.entries || DecodeBoE(v.entries["cancel-in-progress"]).Ok?))
    ensures r.Ok? ==> v.entries["group"] == Str(r.value.group)
    ensures r.Ok? ==> (r.value.cancelInProgress ==
      if "cancel-in-progress" in v.entries then DecodeBoE(v.entries["cancel-in-progress"]).value else DefaultBoE())
    ensures (v.Mapping? && "group" !in v.entries &&
             ("cancel-in-progress" !in v.entries || DecodeBoE(v.entries["cancel-in-progress"]).Ok?)) ==>
      r == Err(MissingField("group"))
  {
    if !v.Mapping? then Err(InvalidType(KindOf(v), "struct Concurrency"))
    else
      var m := v.entries;
      var group :- PresentField(m, "group", DecodeString);
      var cancelInProgress :- DefaultedField(m, "cancel-in-progress", DefaultBoE(), DecodeBoE);
      var group :- Required(group, "group");
      Ok(Concurrency(group, cancelInProgress))
  }

  // ---------------------------------------------------------------------
  // Jobs
  // ---------------------------------------------------------------------

  /** Untagged: `NormalJob` first; `ReusableWorkflowCallJob` only when the
      normal-job decoder fails. */
  function DecodeJob<EV, NJ, RJ>(sub: Submodules<EV, NJ, RJ>, v: Value): (r: Result<Job<NJ, RJ>>)
    ensures sub.normalJob(v).Ok? ==> r == Ok(NormalJob(sub.normalJob(v).value))
    ensures sub.normalJob(v).Err? && sub.reusableJob(v).Ok? ==>
      r == Ok(ReusableWorkflowCallJob(sub.reusableJob(v).value))
    ensures sub.normalJob(v).Err? && sub.reusableJob(v).Err? ==> r == Err(NoVariantMatched("Job"))
  {
    var asNormal := (x: Value) =>
      match sub.normalJob(x) case Ok(j) => Ok(NormalJob(j)) case Err(e) => Err(e);
    var asReusable := (x: Value) =>
      match sub.reusableJob(x) case Ok(j) => Ok(ReusableWorkflowCallJob(j)) case Err(e) => Err(e);
    var variants := [asNormal, asReusable];
    assert variants[0](v) == asNormal(v) && variants[1](v) == asReusable(v);
    Untagged("Job", v, variants)
  }

  function JobDecoder<EV, NJ, RJ>(sub: Submodules<EV, NJ, RJ>): Value -> Result<Job<NJ, RJ>> {
    (x: Value) => DecodeJob(sub, x)
  }

  function DecodeJobs<EV, NJ, RJ>(sub: Submodules<EV, NJ, RJ>, v: Value): (r: Result<map<string, Job<NJ, RJ>>>)
    ensures !v.Mapping? ==> r == Err(InvalidType(KindOf(v), "a map"))
    ensures v.Mapping? ==> (r.Ok? <==> forall k | k in v.entries :: DecodeJob(sub, v.entries[k]).Ok?)
    ensures r.Ok? ==> r.value.Keys == v.entries.Keys
    ensures r.Ok? ==> forall k | k in v.entries :: DecodeJob(sub, v.entries[k]) == Ok(r.value[k])
    ensures v.Mapping? && r.Err? ==> r.error == NoVariantMatched("Job")
  {
    if v.Mapping? then DecodeEntries(v.entries, JobDecoder(sub), NoVariantMatched("Job"))
    else Err(InvalidType(KindOf(v), "a map"))
  }

  // ---------------------------------------------------------------------
  // The workflow
  // ---------------------------------------------------------------------

  /** Every workflow field whose key is present decodes. */
  predicate PresentFieldsDecode<EV, NJ, RJ>(sub: Submodules<EV, NJ, RJ>, m: map<string, Value>) {
    && StringOrAbsent(m, "name")
    && StringOrAbsent(m, "run-name")
    && ("on" in m ==> DecodeTrigger(sub, m["on"]).Ok?)
    && ("permissions" in m ==> DecodePermissions(m["permissions"]).Ok?)
    && ("env" in m ==> DecodeEnv(m["env"]).Ok?)
    && ("defaults" in m && !m["defaults"].Null? ==> DecodeDefaults(m["defaults"]).Ok?)
    && ("concurrency" in m && !m["concurrency"].Null? ==> DecodeConcurrency(m["concurrency"]).Ok?)
    && ("jobs" in m ==> DecodeJobs(sub, m["jobs"]).Ok?)
  }

  /** Some workflow field whose key is present fails with `e`. */
  predicate FieldFails<EV, NJ, RJ>(sub: Submodules<EV, NJ, RJ>, m: map<string, Value>, e: DecodeError) {
    || ("name" in m && !m["name"].Null? && DecodeString(m["name"]) == Err(e))
    || ("run-name" in m && !m["run-name"].Null? && DecodeString(m["run-name"]) == Err(e))
    || ("on" in m && DecodeTrigger(sub, m["on"]) == Err(e))
    || ("permissions" in m && DecodePermissions(m["permissions"]) == Err(e))
    || ("env" in m && DecodeEnv(m["env"]) == Err(e))
    || ("defaults" in m && !m["defaults"].Null? && DecodeDefaults(m["defaults"]) == Err(e))
    || ("concurrency" in m && !m["concurrency"].Null? && DecodeConcurrency(m["concurrency"]) == Err(e))
    || ("jobs" in m && DecodeJobs(sub, m["jobs"]) == Err(e))
  }

  /** The first four fields, once their present keys are decoded: `on` is
      still `None` when its key is absent. */
  datatype HeadFields<EV> = HeadFields(
    name: Option<string>,
    runName: Option<string>,
    on: Option<Trigger<EV>>,
    permissions: Permissions)

  /** The last four fields, likewise: `jobs` is still `None` when absent. */
  datatype TailFields<NJ, RJ> = TailFields(
    env: map<string, EnvValue>,
    defaults: Option<Defaults>,
    concurrency: Option<Concurrency>,
    jobs: Option<map<string, Job<NJ, RJ>>>)

  /** `name`, `run-name`, `on` and `permissions`, decoded in that order. */
  function DecodeHeadFields<EV, NJ, RJ>(sub: Submodules<EV, NJ, RJ>, m: map<string, Value>): (r: Result<HeadFields<EV>>)
    ensures r.Ok? <==>
      && StringOrAbsent(m, "name")
      && StringOrAbsent(m, "run-name")
      && ("on" in m ==> DecodeTrigger(sub, m["on"]).Ok?)
      && ("permissions" in m ==> DecodePermissions(m["permissions"]).Ok?)
    ensures r.Err? ==> FieldFails(sub, m, r.error)
    ensures r.Ok? ==> HoldsText(m, "name", r.value.name)
    ensures r.Ok? ==> HoldsText(m, "run-name", r.value.runName)
    ensures r.Ok? ==> (r.value.on.Some? <==> "on" in m)
    ensures r.Ok? && "on" in m ==> DecodeTrigger(sub, m["on"]) == Ok(r.value.on.value)
    ensures r.Ok? ==> if "permissions" in m
                      then DecodePermissions(m["permissions"]) == Ok(r.value.permissions)
                      else r.value.permissions == DefaultPermissions()
  {
    var name :- OptionalField(m, "name", DecodeString);
    var runName :- OptionalField(m, "run-name", DecodeString);
    var on :- PresentField(m, "on", (x: Value) => DecodeTrigger(sub, x));
    var permissions :- DefaultedField(m, "permissions", DefaultPermissions(), DecodePermissions);
    Ok(HeadFields(name, runName, on, permissions))
  }

  /** `env`, `defaults`, `concurrency` and `jobs`, decoded in that order. */
  function DecodeTailFields<EV, NJ, RJ>(sub: Submodules<EV, NJ, RJ>, m: map<string, Value>): (r: Result<TailFields<NJ, RJ>>)
    ensures r.Ok? <==>
      && ("env" in m ==> DecodeEnv(m["env"]).Ok?)
      && ("defaults" in m && !m["defaults"].Null? ==> DecodeDefaults(m["defaults"]).Ok?)
      && ("concurrency" in m && !m["concurrency"].Null? ==> DecodeConcurrency(m["concurrency"]).Ok?)
      && ("jobs" in m ==> DecodeJobs(sub, m["jobs"]).Ok?)
    ensures r.Err? ==> FieldFails(sub, m, r.error)
    ensures r.Ok? ==> if "env" in m
                      then DecodeEnv(m["env"]) == Ok(r.value.env)
                      else r.value.env == map[]
    ensures r.Ok? ==> if "defaults" !in m || m["defaults"].Null?
                      then r.value.defaults == Option.None
                      else r.value.defaults.Some? && DecodeDefaults(m["defaults"]) == Ok(r.value.defaults.value)
    ensures r.Ok? ==> if "concurrency" !in m || m["concurrency"].Null?
                      then r.value.concurrency == Option.None
                      else r.value.concurrency.Some? && DecodeConcurrency(m["concurrency"]) == Ok(r.value.concurrency.value)
    ensures r.Ok? ==> (r.value.jobs.Some? <==> "jobs" in m)
    ensures r.Ok? && "jobs" in m ==> DecodeJobs(sub, m["jobs"]) == Ok(r.value.jobs.value)
  {
    var env :- DefaultedField(m, "env", map[], DecodeEnv);
    var defaults :- OptionalField(m, "defaults", DecodeDefaults);
    var concurrency :- OptionalField(m, "concurrency", DecodeConcurrency);
    var jobs :- PresentField(m, "jobs", (x: Value) => DecodeJobs(sub, x));
    Ok(TailFields(env, defaults, concurrency, jobs))
  }

  /** Present fields are decoded first, in declaration order; only then is a
      missing `on` or `jobs` reported. */
  function DecodeWorkflow<EV, NJ, RJ>(sub: Submodules<EV, NJ, RJ>, v: Value): (r: Result<Workflow<EV, NJ, RJ>>)
    ensures !v.Mapping? ==> r == Err(InvalidType(KindOf(v), "struct Workflow"))
    ensures v.Mapping? ==> (r.Ok? <==> PresentFieldsDecode(sub, v.entries) && "on" in v.entries && "jobs" in v.entries)
    ensures v.Mapping? && PresentFieldsDecode(sub, v.entries) && "on" !in v.entries ==> r == Err(MissingField("on"))
    ensures v.Mapping? && PresentFieldsDecode(sub, v.entries) && "on" in v.entries && "jobs" !in v.entries ==>
      r == Err(MissingField("jobs"))
    ensures v.Mapping? && r.Err? && !PresentFieldsDecode(sub, v.entries) ==> FieldFails(sub, v.entries, r.error)
    ensures r.Ok? ==> "on" in v.entries && DecodeTrigger(sub, v.entries["on"]) == Ok(r.value.on)
    ensures r.Ok? ==> "jobs" in v.entries && DecodeJobs(sub, v.entries["jobs"]) == Ok(r.value.jobs)
    ensures r.Ok? ==> HoldsText(v.entries, "name", r.value.name)
    ensures r.Ok? ==> HoldsText(v.entries, "run-name", r.value.runName)
    ensures r.Ok? ==> if "permissions" in v.entries
                      then DecodePermissions(v.entries["permissions"]) == Ok(r.value.permissions)
                      else r.value.permissions == DefaultPermissions()
    ensures r.Ok? ==> if "env" in v.entries
                      then DecodeEnv(v.entries["env"]) == Ok(r.value.env)
                      else r.value.env == map[]
    ensures r.Ok? ==> if "defaults" !in v.entries || v.entries["defaults"].Null?
                      then r.value.defaults == Option.None
                      else r.value.defaults.Some? && DecodeDefaults(v.entries["defaults"]) == Ok(r.value.defaults.value)
    ensures r.Ok? ==> if "concurrency" !in v.entries || v.entries["concurrency"].Null?
                      then r.value.concurrency == Option.None
                      else r.value.concurrency.Some? && DecodeConcurrency(v.entries["concurrency"]) == Ok(r.value.concurrency.value)
  {
    if !v.Mapping? then Err(InvalidType(KindOf(v), "struct Workflow"))
    else
      var head :- DecodeHeadFields(sub, v.entries);
      var tail :- DecodeTailFields(sub, v.entries);
      var on :- Required(head.on, "on");
      var jobs :- Required(tail.jobs, "jobs");
      Ok(Workflow(head.name, head.runName, on, head.permissions, tail.env, tail.defaults, tail.concurrency, jobs))
  }

  // ---------------------------------------------------------------------
  // Encoding: the inverse direction, written only to state round trips.
  // ---------------------------------------------------------------------

  /** Encoders for the submodules' types. */
  datatype Encoders<!EV, !NJ, !RJ> = Encoders(
    events: EV -> Value,
    normalJob: NJ -> Value,
    reusableJob: RJ -> Value)

  /** The submodule decoders invert their encoders; an event configuration is
      written as a mapping, and a reusable-workflow job is never read as a
      normal job. */
  ghost predicate Inverts<EV(!new), NJ(!new), RJ(!new)>(sub: Submodules<EV, NJ, RJ>, enc: Encoders<EV, NJ, RJ>) {
    && (forall e :: enc.events(e).Mapping? && sub.events(enc.events(e)) == Ok(e))
    && (forall j :: sub.normalJob(enc.normalJob(j)) == Ok(j))
    && (forall j :: sub.normalJob(enc.reusableJob(j)).Err? && sub.reusableJob(enc.reusableJob(j)) == Ok(j))
  }

  /** Every bare event of a trigger is one of the event names. */
  predicate NamedEvents<EV>(names: set<string>, t: Trigger<EV>) {
    match t
    case BareEvent(e) => e in names
    case BareEvents(es) => forall i | 0 <= i < |es| :: es[i] in names
    case Events(_) => true
  }

  function EncodeTrigger<EV, NJ, RJ>(enc: Encoders<EV, NJ, RJ>, t: Trigger<EV>): Value {
    match t
    case BareEvent(e) => Str(e)
    case BareEvents(es) => Sequence(seq(|es|, i requires 0 <= i < |es| => Str(es[i])))
    case Events(c) => enc.events(c)
  }

  function EncodeJob<EV, NJ, RJ>(enc: Encoders<EV, NJ, RJ>, j: Job<NJ, RJ>): Value {
    match j
    case NormalJob(n) => enc.normalJob(n)
    case ReusableWorkflowCallJob(r) => enc.reusableJob(r)
  }

  function EncodeJobs<EV, NJ, RJ>(enc: Encoders<EV, NJ, RJ>, jobs: map<string, Job<NJ, RJ>>): Value {
    Mapping(map k | k in jobs :: EncodeJob(enc, jobs[k]))
  }

  /** `m` with `key` bound to `o`'s value, when there is one. */
  function Put(m: map<string, Value>, key: string, o: Option<Value>): map<string, Value> {
    match o
    case Some(x) => m[key := x]
    case None => m
  }

  function EncodeText(o: Option<string>): Option<Value> {
    match o
    case Some(t) => Some(Str(t))
    case None => Option.None
  }

  function EncodeRunDefaults(d: RunDefaults): Value {
    Mapping(Put(Put(map[], "shell", EncodeText(d.shell)), "working-directory", EncodeText(d.workingDirectory)))
  }

  function EncodeDefaults(d: Defaults): Value {
    match d.run
    case Some(run) => Mapping(map["run" := EncodeRunDefaults(run)])
    case None => Mapping(map[])
  }

  function EncodeConcurrency(c: Concurrency): Value {
    Mapping(map["group" := Str(c.group), "cancel-in-progress" := EncodeBoE(c.cancelInProgress)])
  }

  /** Optional fields that are `None` are left out; the others are written. */
  function EncodeWorkflow<EV, NJ, RJ>(enc: Encoders<EV, NJ, RJ>, w: Workflow<EV, NJ, RJ>): Value {
    var defaults := if w.defaults.Some? then Some(EncodeDefaults(w.defaults.value)) else Option.None;
    var concurrency := if w.concurrency.Some? then Some(EncodeConcurrency(w.concurrency.value)) else Option.None;
    var optional :=
      Put(Put(Put(Put(map[], "name", EncodeText(w.name)), "run-name", EncodeText(w.runName)),
              "defaults", defaults), "concurrency", concurrency);
    Mapping(optional + map[
      "on" := EncodeTrigger(enc, w.on),
      "permissions" := EncodePermissions(w.permissions),
      "env" := EncodeEnv(w.env),
      "jobs" := EncodeJobs(enc, w.jobs)])
  }

  // ---------------------------------------------------------------------
  // Properties
  // ---------------------------------------------------------------------

  /** `on: push` is the single bare event `push`. */
  lemma OnPush<EV, NJ, RJ>(sub: Submodules<EV, NJ, RJ>)
    requires "push" in sub.eventNames
    ensures DecodeTrigger(sub, Str("push")) == Ok(BareEvent("push"))
  {
  }

  /** `on: [push, fork]` is the list of the two bare events, in order. */
  lemma OnPushFork<EV, NJ, RJ>(sub: Submodules<EV, NJ, RJ>)
    requires "push" in sub.eventNames && "fork" in sub.eventNames
    ensures DecodeTrigger(sub, Sequence([Str("push"), Str("fork")])) == Ok(BareEvents(["push", "fork"]))
  {
    var v := Sequence([Str("push"), Str("fork")]);
    var r := DecodeTrigger(sub, v);
    assert forall i | 0 <= i < |v.items| :: v.items[i].Str? && v.items[i].s in sub.eventNames;
    assert r.value.events == ["push", "fork"];
  }

  /** A mapping is never a bare event or a list of them: it goes to the
      `Events` decoder, and fails as a `Trigger` exactly when that decoder does. */
  lemma MappingIsEvents<EV, NJ, RJ>(sub: Submodules<EV, NJ, RJ>, m: map<string, Value>)
    ensures DecodeTrigger(sub, Mapping(m)).Ok? <==> sub.events(Mapping(m)).Ok?
    ensures DecodeTrigger(sub, Mapping(m)).Ok? ==> DecodeTrigger(sub, Mapping(m)).value == Events(sub.events(Mapping(m)).value)
  {
  }

  /** A decoded trigger only names known events. */
  lemma DecodedTriggerIsNamed<EV, NJ, RJ>(sub: Submodules<EV, NJ, RJ>, v: Value)
    requires DecodeTrigger(sub, v).Ok?
    ensures NamedEvents(sub.eventNames, DecodeTrigger(sub, v).value)
  {
  }

  lemma TriggerRoundTrip<EV(!new), NJ(!new), RJ(!new)>(
    sub: Submodules<EV, NJ, RJ>, enc: Encoders<EV, NJ, RJ>, t: Trigger<EV>)
    requires Inverts(sub, enc) && NamedEvents(sub.eventNames, t)
    ensures DecodeTrigger(sub, EncodeTrigger(enc, t)) == Ok(t)
  {
    var v := EncodeTrigger(enc, t);
    match t
    case BareEvent(e) =>
    case BareEvents(es) =>
      var r := DecodeTrigger(sub, v);
      assert forall i | 0 <= i < |v.items| :: v.items[i] == Str(es[i]);
      assert r.value.events == es;
    case Events(c) =>
      assert v.Mapping? && sub.events(v) == Ok(c);
  }

  lemma JobRoundTrip<EV(!new), NJ(!new), RJ(!new)>(
    sub: Submodules<EV, NJ, RJ>, enc: Encoders<EV, NJ, RJ>, j: Job<NJ, RJ>)
    requires Inverts(sub, enc)
    ensures DecodeJob(sub, EncodeJob(enc, j)) == Ok(j)
  {
  }

  lemma JobsRoundTrip<EV(!new), NJ(!new), RJ(!new)>(
    sub: Submodules<EV, NJ, RJ>, enc: Encoders<EV, NJ, RJ>, jobs: map<string, Job<NJ, RJ>>)
    requires Inverts(sub, enc)
    ensures DecodeJobs(sub, EncodeJobs(enc, jobs)) == Ok(jobs)
  {
    var e := EncodeJobs(enc, jobs).entries;
    forall k | k in e ensures JobDecoder(sub)(e[k]) == Ok(jobs[k]) {
      JobRoundTrip(sub, enc, jobs[k]);
    }
    EntriesDecodeTo(e, jobs, JobDecoder(sub), NoVariantMatched("Job"));
  }

  lemma RunDefaultsRoundTrip(d: RunDefaults)
    ensures DecodeRunDefaults(EncodeRunDefaults(d)) == Ok(d)
  {
  }

  lemma DefaultsRoundTrip(d: Defaults)
    ensures DecodeDefaults(EncodeDefaults(d)) == Ok(d)
  {
  }

  lemma ConcurrencyRoundTrip(c: Concurrency)
    ensures DecodeConcurrency(EncodeConcurrency(c)) == Ok(c)
  {
  }

  /** The required and the defaulted fields of a workflow are always written. */
  lemma EncodedWorkflowEntries<EV, NJ, RJ>(enc: Encoders<EV, NJ, RJ>, w: Workflow<EV, NJ, RJ>)
    ensures var m := EncodeWorkflow(enc, w).entries;
      && "on" in m && m["on"] == EncodeTrigger(enc, w.on)
      && "permissions" in m && m["permissions"] == EncodePermissions(w.permissions)
      && "env" in m && m["env"] == EncodeEnv(w.env)
      && "jobs" in m && m["jobs"] == EncodeJobs(enc, w.jobs)
  {
  }

  /** An optional text is written exactly when it is there. */
  lemma EncodedWorkflowTexts<EV, NJ, RJ>(enc: Encoders<EV, NJ, RJ>, w: Workflow<EV, NJ, RJ>)
    ensures var m := EncodeWorkflow(enc, w).entries;
      HoldsText(m, "name", w.name) && HoldsText(m, "run-name", w.runName)
  {
  }

  /** An optional record is written exactly when it is there. */
  lemma EncodedWorkflowRecords<EV, NJ, RJ>(enc: Encoders<EV, NJ, RJ>, w: Workflow<EV, NJ, RJ>)
    ensures var m := EncodeWorkflow(enc, w).entries;
      && (if w.defaults.Some? then "defaults" in m && m["defaults"] == EncodeDefaults(w.defaults.value)
          else "defaults" !in m)
      && (if w.concurrency.Some? then "concurrency" in m && m["concurrency"] == EncodeConcurrency(w.concurrency.value)
          else "concurrency" !in m)
  {
  }

  /** The converse of `DecodeWorkflow`'s contract: a mapping whose fields
      decode to those of `w` decodes to `w`. */
  lemma WorkflowFromFields<EV, NJ, RJ>(sub: Submodules<EV, NJ, RJ>, m: map<string, Value>, w: Workflow<EV, NJ, RJ>)
    requires "on" in m && DecodeTrigger(sub, m["on"]) == Ok(w.on)
    requires "permissions" in m && DecodePermissions(m["permissions"]) == Ok(w.permissions)
    requires "env" in m && DecodeEnv(m["env"]) == Ok(w.env)
    requires "jobs" in m && DecodeJobs(sub, m["jobs"]) == Ok(w.jobs)
    requires HoldsText(m, "name", w.name) && HoldsText(m, "run-name", w.runName)
    requires if w.defaults.Some?
             then "defaults" in m && !m["defaults"].Null? && DecodeDefaults(m["defaults"]) == Ok(w.defaults.value)
             else "defaults" !in m
    requires if w.concurrency.Some?
             then "concurrency" in m && !m["concurrency"].Null? && DecodeConcurrency(m["concurrency"]) == Ok(w.concurrency.value)
             else "concurrency" !in m
    ensures DecodeWorkflow(sub, Mapping(m)) == Ok(w)
  {
    assert PresentFieldsDecode(sub, m);
    var r := DecodeWorkflow(sub, Mapping(m));
    assert r.value.name == w.name && r.value.runName == w.runName;
    assert r.value.defaults == w.defaults && r.value.concurrency == w.concurrency;
  }

  /** Encoding a workflow and decoding it again gives the same workflow. */
  lemma WorkflowRoundTrip<EV(!new), NJ(!new), RJ(!new)>(
    sub: Submodules<EV, NJ, RJ>, enc: Encoders<EV, NJ, RJ>, w: Workflow<EV, NJ, RJ>)
    requires Inverts(sub, enc) && NamedEvents(sub.eventNames, w.on)
    ensures DecodeWorkflow(sub, EncodeWorkflow(enc, w)) == Ok(w)
  {
    EncodedWorkflowEntries(enc, w);
    EncodedWorkflowTexts(enc, w);
    EncodedWorkflowRecords(enc, w);
    TriggerRoundTrip(sub, enc, w.on);
    PermissionsRoundTrip(w.permissions);
    EnvRoundTrip(w.env);
    JobsRoundTrip(sub, enc, w.jobs);
    if w.defaults.Some? {
      DefaultsRoundTrip(w.defaults.value);
    }
    if w.concurrency.Some? {
      ConcurrencyRoundTrip(w.concurrency.value);
    }
    WorkflowFromFields(sub, EncodeWorkflow(enc, w).entries, w);
  }

  /** Decoding is idempotent after one encode: re-decoding the encoding of a
      decoded workflow gives it back. */
  lemma DecodeEncodeDecode<EV(!new), NJ(!new), RJ(!new)>(
    sub: Submodules<EV, NJ, RJ>, enc: Encoders<EV, NJ, RJ>, v: Value)
    requires Inverts(sub, enc) && DecodeWorkflow(sub, v).Ok?
    ensures DecodeWorkflow(sub, EncodeWorkflow(enc, DecodeWorkflow(sub, v).value)) == DecodeWorkflow(sub, v)
  {
    DecodedTriggerIsNamed(sub, v.entries["on"]);
    WorkflowRoundTrip(sub, enc, DecodeWorkflow(sub, v).value);
  }

  /** A key that is not one of the eight workflow keys changes none of the
      first four fields. */
  lemma HeadFieldsIgnoreUnknownKeys<EV, NJ, RJ>(sub: Submodules<EV, NJ, RJ>, m: map<string, Value>, k: string, x: Value)
    requires k !in WorkflowKeys
    ensures DecodeHeadFields(sub, m[k := x]) == DecodeHeadFields(sub, m)
  {
    var m' := m[k := x];
    assert k != "name" && k != "run-name" && k != "on" && k != "permissions";
    assert OptionalField(m', "name", DecodeString) == OptionalField(m, "name", DecodeString);
    assert OptionalField(m', "run-name", DecodeString) == OptionalField(m, "run-name", DecodeString);
    assert PresentField(m', "on", (v: Value) => DecodeTrigger(sub, v)) == PresentField(m, "on", (v: Value) => DecodeTrigger(sub, v));
    assert DefaultedField(m', "permissions", DefaultPermissions(), DecodePermissions)
        == DefaultedField(m, "permissions", DefaultPermissions(), DecodePermissions);
  }

  /** Nor any of the last four. */
  lemma TailFieldsIgnoreUnknownKeys<EV, NJ, RJ>(sub: Submodules<EV, NJ, RJ>, m: map<string, Value>, k: string, x: Value)
    requires k !in WorkflowKeys
    ensures DecodeTailFields(sub, m[k := x]) == DecodeTailFields(sub, m)
  {
    var m' := m[k := x];
    assert k != "env" && k != "defaults" && k != "concurrency" && k != "jobs";
    assert DefaultedField(m', "env", map[], DecodeEnv) == DefaultedField(m, "env", map[], DecodeEnv);
    assert OptionalField(m', "defaults", DecodeDefaults) == OptionalField(m, "defaults", DecodeDefaults);
    assert OptionalField(m', "concurrency", DecodeConcurrency) == OptionalField(m, "concurrency", DecodeConcurrency);
    assert PresentField(m', "jobs", (v: Value) => DecodeJobs(sub, v)) == PresentField(m, "jobs", (v: Value) => DecodeJobs(sub, v));
  }

  /** A key that is not one of the eight workflow keys does not change the result. */
  lemma WorkflowIgnoresUnknownKeys<EV, NJ, RJ>(sub: Submodules<EV, NJ, RJ>, m: map<string, Value>, k: string, x: Value)
    requires k !in WorkflowKeys
    ensures DecodeWorkflow(sub, Mapping(m[k := x])) == DecodeWorkflow(sub, Mapping(m))
  {
    HeadFieldsIgnoreUnknownKeys(sub, m, k, x);
    TailFieldsIgnoreUnknownKeys(sub, m, k, x);
  }


  /** `concurrency: {group: ci}` decodes with `cancel-in-progress` false. */
  lemma CancelInProgressDefaultsToFalse()
    ensures DecodeConcurrency(Mapping(map["group" := Str("ci")])) == Ok(Concurrency("ci", Literal(false)))
  {
  }

  /** A missing `group` is reported only after `cancel-in-progress` decodes:
      a bad flag is reported even when the group is missing too. */
  lemma GroupMissingAfterBadFlag()
    ensures DecodeConcurrency(Mapping(map[])) == Err(MissingField("group"))
    ensures DecodeConcurrency(Mapping(map["cancel-in-progress" := Null])) == Err(NoVariantMatched("LoE"))
  {
  }

  /** A workflow without `on` is refused as missing `on`, once every field that
      is there decodes; with `on` but no `jobs`, as missing `jobs`. */
  lemma MissingRequiredFields<EV, NJ, RJ>(sub: Submodules<EV, NJ, RJ>)
    requires "push" in sub.eventNames
    ensures DecodeWorkflow(sub, Mapping(map["name" := Str("CI")])) == Err(MissingField("on"))
    ensures DecodeWorkflow(sub, Mapping(map["on" := Str("push")])) == Err(MissingField("jobs"))
  {
    assert PresentFieldsDecode(sub, map["name" := Str("CI")]);
    assert PresentFieldsDecode(sub, map["on" := Str("push")]);
  }
}
