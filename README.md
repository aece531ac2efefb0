# GitHub Actions workflow models: the decoder, written out

The library describes GitHub Actions workflow files as Rust types. serde's derive
attributes turn a parsed YAML/JSON document into those types. This project writes
that derived decoding out as pure Dafny functions and proves what it does. The
input is a generic value tree: null, boolean, number, string, sequence, or
mapping with string keys. The output is the typed workflow model, or a decoding
error.

- `values.dfy` (module `Values`): the value tree. Numbers are an opaque `F64`.
- `decoding.dfy` (module `Decoding`): the engine serde supplies.
  - Results and errors.
  - Sequences and maps of decoded items.
  - The untagged-union resolver: variants are tried in declaration order and the first that decodes wins.
  - The keyword-enum resolver.
  - Record-field helpers for defaulted, optional and required fields.
- `common.dfy` (module `Common`): the types of `src/common.rs`, which are `Permissions`, `BasePermission`, `ExplicitPermissions`, `Permission`, `Env`/`EnvValue`, `LoE`/`BoE` and `SoV`.
- `workflow.dfy` (module `Workflows`): the types of `src/workflow/mod.rs`, which are `Workflow`, `Trigger`, `Defaults`, `RunDefaults`, `Concurrency` and `Job`.

The `event` and `job` submodules are not part of this model. A `Submodules` value
stands in for them. It holds the set of bare event names and three decoders, one
each for event configurations, normal jobs and reusable-workflow jobs.

Encoders (`Encode…`) map typed values back to value trees. They are not in the
library. They exist to state round trips: decoding an encoded value gives it back.

How the derived decoders behave:
- **Untagged unions fall through.** An untagged union does not commit to a variant on the node's shape. A variant that fails on any node, for any reason, hands the node to the next variant. `Trigger` and `Job` therefore behave as a list of fallbacks.
- **Unknown keys are ignored.** No record carries `deny_unknown_fields`, so a key that names no field is skipped.
- **`Expr` takes any text.** `LoE::Expr` accepts any string. The text is not checked for `${{ … }}` syntax.
- **`Trigger`'s `snake_case` renaming has no effect.** The enum is untagged, so its variant names are never read.

## Model

| member | source | states |
|---|---|---|
| Decoding.Untagged | src/common.rs:5-10 | the result is Ok exactly when some variant decodes; it is then the first variant in declaration order that decodes; a failure is always "no variant matched" for the union |
| Decoding.DecodeItems | src/common.rs:103-106 | a vector decodes exactly when every item does, item by item and in order; a failure is the error of the first failing item |
| Decoding.DecodeEntries | src/common.rs:55 | a string-keyed map decodes exactly when every value does; it keeps the same keys, and every value is its decoded form |
| Decoding.Keywords | src/common.rs:18-26 | the keyword set holds exactly the keywords of the table |
| Decoding.Lookup | src/common.rs:46-53 | a keyword is found exactly when it is in the table, and the first entry with that keyword gives the variant |
| Decoding.EntriesDecodeTo | src/common.rs:55 | entries that each decode to a map's values decode to that map |
| Decoding.DecodeKeyword | src/common.rs:18-26 | a unit enum decodes exactly from a string that is one of its keywords, to the first variant with that keyword; any other string is an unknown variant; a non-string is a type error |
| Decoding.DefaultedField | src/workflow/mod.rs:26-29 | a `#[serde(default)]` field decodes exactly when its key is absent or its value decodes; an absent key gives the default; a failure is the value's own error |
| Decoding.OptionalField | src/workflow/mod.rs:23-24 | an `Option` field is `None` exactly when its key is absent or its value is null; it decodes exactly when it is `None` or its value decodes, and `Some` holds the decoded value |
| Decoding.PresentField | src/workflow/mod.rs:25-32 | a required field's value is decoded only when its key is present; an absent key is not yet an error |
| Decoding.Required | src/workflow/mod.rs:25-32 | a required field that was absent is reported as missing under its key; a present one passes through |
| Common.DefaultExplicitPermissions | src/common.rs:28-30 | the record default grants the default `Permission` to every one of the 13 scopes |
| Common.DefaultBasePermission | src/common.rs:22-23 | the `#[default]` base variant is the one whose keyword is `default` |
| Common.DefaultPermission | src/common.rs:51-52 | the `#[default]` permission is the one whose keyword is `none` |
| Common.DefaultPermissions | src/common.rs:12-16 | `Permissions::default()` is the base variant holding the base default, the value the keyword `default` decodes to |
| Common.DecodeBasePermission | src/common.rs:18-26 | accepts exactly the strings `default`, `read-all` and `write-all`, each as its own variant; any other string is an unknown variant; a non-string is a type error |
| Common.DecodePermission | src/common.rs:46-53 | accepts exactly `read`, `write` and `none`; other strings are unknown variants; non-strings are type errors |
| Common.DecodeExplicitPermissions | src/common.rs:28-44 | a mapping decodes exactly when every scope key present decodes as a `Permission`; each field is then its scope's decoded level; a failure is the failing scope's error; a non-mapping is a type error |
| Common.DecodePermissions | src/common.rs:5-10 | `Base` is tried first; a node that is not a base keyword falls through to `Explicit`; when both fail, "no variant matched" |
| Common.DecodeEnvValue | src/common.rs:60-66 | a string gives `String`, a number `Number` and a boolean `Boolean`; null, sequences and mappings match no variant |
| Common.DecodeEnv | src/common.rs:55 | a mapping decodes exactly when all its values are env values; the same keys, each with its decoded value |
| Common.EnvValueToString | src/common.rs:68-76 | a string prints as text that decodes back to the same string value; a boolean prints as `true` exactly when it is true and `false` exactly when false; a number prints as its `f64` text |
| Common.DecodeLoE | src/common.rs:78-86 | a node that decodes as the literal type gives `Literal`; otherwise a string gives `Expr` with its raw text; anything else matches no variant |
| Common.DefaultLoE | src/common.rs:88-95 | `LoE::default()` is a literal, never an expression, holding `T::default()` |
| Common.DefaultBoE | src/common.rs:88-97 | `BoE::default()` is `LoE::default()` for `bool`, the value the boolean `false` decodes to |
| Common.DecodeBoE | src/common.rs:97 | a boolean gives `Literal`, a string gives `Expr`, anything else matches no variant |
| Common.DecodeSoV | src/common.rs:99-106 | a node that decodes as one item gives `One`; otherwise a sequence whose items all decode gives `Many`; otherwise no variant matched |
| Common.SoVFromVec | src/common.rs:108-112 | `From<Vec<T>>` gives `Many` holding the same vector, whatever its length |
| Common.SoVFromOne | src/common.rs:114-118 | `From<T>` gives `One` holding the value, never the one-element `Many` |
| Common.DefaultsAreDecodedForms | src/common.rs:12-16 | `Permissions::default()` is `Base(Default)`, the same as the keyword `default`; the empty mapping decodes to the all-`none` record |
| Common.LevelsDetermineRecord | src/common.rs:30-44 | two explicit records that agree on every scope are equal |
| Common.ScopeLevelMeaning | src/common.rs:29-44 | a scope's level is its decoded keyword when its kebab-case key is present, and `none` otherwise |
| Common.ExplicitPermissionsByScope | src/common.rs:28-44 | the record decodes if and only if every present scope decodes; each field is then the level its scope decodes to |
| Common.ExplicitPermissionsLevels | src/common.rs:29-53 | each omitted scope is `none`, and each present scope has the level its keyword names |
| Common.ReadAllIsBase | src/common.rs:128-131 | `read-all` decodes as `Permissions` to `Base(ReadAll)` |
| Common.SecurityEventsWriteOnly | src/common.rs:133-137 | `security-events: write` alone decodes as a record, with that scope `write` and the other twelve `none` |
| Common.SecurityEventsIsExplicit | src/common.rs:5-44 | the same mapping decoded as `Permissions` is `Explicit` of the default record with `security-events` set to `write` |
| Common.ExplicitPermissionsIgnoreUnknownKeys | src/common.rs:29-44 | a key that names no scope does not change the decoded record |
| Common.BasePermissionKeywords | src/common.rs:18-26 | each base variant's keyword decodes to that variant, and a keyword that decodes is the keyword of its result |
| Common.PermissionKeywords | src/common.rs:46-53 | each permission's keyword decodes to that permission, and a keyword that decodes is the keyword of its result |
| Common.EncodedScope | src/common.rs:30-44 | each scope is written under its own kebab-case key |
| Common.ExplicitPermissionsRoundTrip | src/common.rs:28-44 | an encoded record decodes back to itself |
| Common.PermissionsRoundTrip | src/common.rs:5-10 | encoded permissions decode back to themselves; an explicit record is never taken for a base keyword |
| Common.QuotedTrueStaysString | src/common.rs:60-76 | the string `"true"` stays a `String` and the boolean `true` is a `Boolean`; both print as `true` |
| Common.EnvValueText | src/common.rs:68-76 | a decoded env value prints its string unchanged, a boolean as `true`/`false` and a number as its `f64` text |
| Common.EnvValueRoundTrip | src/common.rs:60-66 | an encoded env value decodes back to itself |
| Common.EnvRoundTrip | src/common.rs:55-66 | an encoded env map decodes back to itself |
| Common.EnvScalarsStringify | src/common.rs:55-76 | `{FOO: 1, BAR: true}` decodes; its values print as the number's text and as `true` |
| Common.BoELiteralOrExpr | src/common.rs:88-97 | a `BoE` decodes exactly from booleans and strings: a boolean is a literal, a string an expression; its default is `Literal(false)` |
| Common.LiteralShadowsExpr | src/common.rs:83-86 | when the literal type accepts strings, an `LoE` never holds an `Expr` |
| Common.LoERoundTrip | src/common.rs:83-86 | a literal, or an expression whose text the literal type refuses, decodes back from its encoding |
| Common.BoERoundTrip | src/common.rs:97 | every `BoE` decodes back from its encoding |
| Common.FromNeverPromotes | src/common.rs:108-118 | `From<Vec<T>>` of a one-element vector is `Many`; `From<T>` is `One`; the two differ |
| Common.SingularIsNotPromoted | src/common.rs:103-106 | a scalar decodes to `One` and a one-element sequence of it to `Many` |
| Common.SoVRoundTrip | src/common.rs:103-106 | `One` and `Many` decode back from their encodings, when the items round-trip and a sequence is not itself an item |
| Workflows.DecodeBareEvent | src/workflow/mod.rs:61 | a bare event decodes exactly from a string that is one of the event names |
| Workflows.DecodeTrigger | src/workflow/mod.rs:58-64 | a known event name gives `BareEvent`; otherwise a sequence of known names gives `BareEvents` with the same names in order; anything else goes to the `Events` decoder, and fails as "no variant matched" when that decoder fails |
| Workflows.DecodeRunDefaults | src/workflow/mod.rs:72-77 | both fields are optional strings under `shell` and `working-directory`; absent or null is `None` |
| Workflows.DecodeDefaults | src/workflow/mod.rs:66-70 | `run` is optional; the record decodes exactly when `run` is absent, null or valid run defaults |
| Workflows.DecodeConcurrency | src/workflow/mod.rs:79-85 | `group` must be a string; an absent `cancel-in-progress` is `Literal(false)`; an absent group is reported once the flag is valid |
| Workflows.DecodeJob | src/workflow/mod.rs:87-92 | `NormalJob` is tried first; `ReusableWorkflowCallJob` is tried only when the normal-job decoder fails |
| Workflows.DecodeJobs | src/workflow/mod.rs:32 | the job map decodes exactly when every job does, with the same keys |
| Workflows.DecodeHeadFields | src/workflow/mod.rs:22-27 | `name`, `run-name`, `on` and `permissions` decode exactly when each present one does; `on` is recorded as present or absent; a failure is the error of a present field |
| Workflows.DecodeTailFields | src/workflow/mod.rs:28-32 | `env`, `defaults`, `concurrency` and `jobs` likewise; `jobs` is recorded as present or absent |
| Workflows.DecodeWorkflow | src/workflow/mod.rs:19-33 | the workflow decodes exactly when every present field decodes and both `on` and `jobs` are present; a missing `on`, then a missing `jobs`, is reported only after the present fields; when a present field fails, the error is that of a failing present field; absent `permissions` is `Permissions::default()`; absent `env` is the empty map; absent or null `name`, `run-name`, `defaults` and `concurrency` are `None` |
| Workflows.OnPush | src/workflow/mod.rs:39-43 | `on: push` is the bare event `push` |
| Workflows.OnPushFork | src/workflow/mod.rs:44-48 | `on: [push, fork]` is the list of those two bare events, in order |
| Workflows.MappingIsEvents | src/workflow/mod.rs:50-63 | a mapping trigger decodes exactly when the `Events` decoder accepts it, and then gives `Events` |
| Workflows.DecodedTriggerIsNamed | src/workflow/mod.rs:58-64 | every bare event in a decoded trigger is a known event name |
| Workflows.TriggerRoundTrip | src/workflow/mod.rs:58-64 | a trigger with known event names decodes back from its encoding |
| Workflows.JobRoundTrip | src/workflow/mod.rs:87-92 | each job decodes back from its encoding, a reusable-workflow job included |
| Workflows.JobsRoundTrip | src/workflow/mod.rs:32 | an encoded job map decodes back to itself |
| Workflows.RunDefaultsRoundTrip | src/workflow/mod.rs:72-77 | encoded run defaults decode back to themselves |
| Workflows.DefaultsRoundTrip | src/workflow/mod.rs:66-70 | encoded defaults decode back to themselves |
| Workflows.ConcurrencyRoundTrip | src/workflow/mod.rs:79-85 | an encoded concurrency decodes back to itself |
| Workflows.EncodedWorkflowEntries | src/workflow/mod.rs:25-32 | `on`, `permissions`, `env` and `jobs` are always written under their keys |
| Workflows.EncodedWorkflowTexts | src/workflow/mod.rs:23-24 | `name` and `run-name` are written exactly when present |
| Workflows.EncodedWorkflowRecords | src/workflow/mod.rs:30-31 | `defaults` and `concurrency` are written exactly when present |
| Workflows.WorkflowFromFields | src/workflow/mod.rs:19-33 | the converse of the workflow decoder's contract: a mapping whose fields decode to those of a workflow decodes to that workflow |
| Workflows.WorkflowRoundTrip | src/workflow/mod.rs:19-33 | a workflow with known event names decodes back from its encoding |
| Workflows.DecodeEncodeDecode | src/workflow/mod.rs:19-33 | re-decoding the encoding of a decoded workflow gives the same result |
| Workflows.HeadFieldsIgnoreUnknownKeys | src/workflow/mod.rs:20-27 | a key that is not one of the eight workflow keys does not change the first four fields |
| Workflows.TailFieldsIgnoreUnknownKeys | src/workflow/mod.rs:20-32 | nor the last four |
| Workflows.WorkflowIgnoresUnknownKeys | src/workflow/mod.rs:20-33 | a key that is not one of the eight workflow keys does not change the result |
| Workflows.CancelInProgressDefaultsToFalse | src/workflow/mod.rs:83-84 | `{group: ci}` decodes with `cancel-in-progress` equal to `Literal(false)` |
| Workflows.GroupMissingAfterBadFlag | src/workflow/mod.rs:81-85 | an empty mapping is missing `group`; an invalid `cancel-in-progress` is reported before the missing group |
| Workflows.MissingRequiredFields | src/workflow/mod.rs:25-32 | a workflow with only `name` is missing `on`; one with only `on: push` is missing `jobs` |

## Left out

- YAML and JSON text parsing is not modelled. The model starts from a value tree that is already built.
- The `event` and `job` submodules are not part of this model. This covers `BareEvent`, `Events`, `NormalJob` and `ReusableWorkflowCallJob`. They are parameters: a set of event names and three decoders.
- Floating point is not modelled. A number is an opaque `F64`, and `f64` Display is a function parameter (`numberText`).
- `HashMap` iteration order and duplicate keys are not modelled. Mappings are Dafny `map`s.
- serde's single-key-map form of unit enum variants is not modelled: a unit variant decodes from its keyword string only. A scope value `{read: null}` is therefore a type error in the model, where serde reads it as `read`. A `Permissions` mapping `{read-all: null}`, which serde reads as `Base(ReadAll)`, falls through in the model to `Explicit` with every scope `none` (`Common.ReadAllMapIsNoPermissions`). If `BareEvent` is a unit enum, `on: {push: null}` is the same case: serde reads it as a bare event, and the model hands it to the `Events` decoder (`Workflows.MappingIsEvents`).
- serde's positional sequence form of structs is not accepted. Records decode from mappings only.
- The text of error messages is not modelled. Errors are a small datatype: type error, unknown variant, missing field, no variant matched.
- The YAML deserializer's type-directed leniency is not modelled. In particular it reads a plain number or boolean as text where a `String` is asked for directly. In the model no value is converted across kinds.
- `Debug` and `PartialEq` are not written out. Dafny's structural equality stands in for them.
- Common.DecodeExplicitPermissions: when several scopes fail, serde reports the first failing key in document order. The model reports the first in declaration order, and states only that a failing scope's error is reported.
- Workflows.DecodeWorkflow: when several present fields fail, serde reports the first in document order. The model decodes them in declaration order, and its contract says only that the error is that of some failing present field.
- Workflows.DecodeConcurrency: likewise, the model reports an invalid `group` before an invalid `cancel-in-progress`, whatever their document order.
