/** The value types the components exchange: parameters, drafts, specs and runs. */
module Domain {
  import opened Prelude
  import Uuid
  import opened Timestamps

  type int32 = i: int | -0x8000_0000 <= i < 0x8000_0000
  type int64 = i: int | -0x8000_0000_0000_0000 <= i < 0x8000_0000_0000_0000

  /**
   * A Go `any` as the parameter maps hold it. Floats carry the text the library's
   * shortest formatting yields for them. `Referenced` is what a pointer, a typed slice or another
   * reference refers to, with its address; `Other` stands for any remaining dynamic type.
   */
  datatype Value =
    | JsonNumber(literal: string)
    | Int(i: int64)
    | Int32(i32: int32)
    | Int64(i64: int64)
    | Float32(shortest32: string)
    | Float64(shortest64: string)
    | Text(text: string)
    | Bool(b: bool)
    | Null
    | Other(tag: nat)
    | Referenced(address: nat, content: nat)
    | List(items: seq<Value>)
    | Object(fields: map<string, Value>)

  datatype DatasetRef = DatasetRef(path: string, split: string)

  datatype Resources = Resources(cpuCores: int64, gpuCount: int64, memoryBytes: int64, timeoutSeconds: int64)

  datatype Refs = Refs(trainer: Option<Uuid.Id>, resource: Option<Uuid.Id>, output: Option<Uuid.Id>)

  /** `*ref == uuid.Nil` counts as no reference at all. */
  predicate IsSet(ref: Option<Uuid.Id>) {
    ref.Some? && ref.value != Uuid.Nil
  }

  datatype Draft = Draft(
    id: Uuid.Id, projectId: Uuid.Id, name: string, description: string, refs: Refs,
    baseModel: string, datasets: seq<DatasetRef>, resources: Resources, parameters: map<string, Value>)

  datatype Spec = Spec(
    id: Uuid.Id, projectId: Uuid.Id, name: string, description: string, refs: Refs,
    baseModel: string, datasets: seq<DatasetRef>, resources: Resources, parameters: map<string, Value>)

  /** A status is any text; five of them the lifecycle knows, `Unknown` is every other one. */
  datatype Status = Queued | Preparing | Running | Succeeded | Failed | Unknown(text: string)

  datatype LifecycleState = LifecycleState(
    status: Status, failureReason: Option<string>, createdAt: Instant,
    startedAt: Option<Instant>, finishedAt: Option<Instant>)

  datatype Run = Run(
    id: Uuid.Id, projectId: Uuid.Id, specId: Uuid.Id, idempotencyKey: Option<string>, lifecycle: LifecycleState)

  /** `run.NewWithSpec`, with the generated identifier and the clock as parameters. */
  function NewWithSpec(id: Uuid.Id, specId: Uuid.Id, projectId: Uuid.Id, now: Instant): Run {
    Run(id, projectId, specId, None, NewLifecycle(now))
  }

  function NewLifecycle(createdAt: Instant): LifecycleState {
    LifecycleState(Queued, None, createdAt, None, None)
  }
}
