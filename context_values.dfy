/** Values the context managers store: the keys of the context channels and the
    span-like objects set under them. */
module ContextValues {

  datatype Option<+T> = None | Some(value: T)

  /** The raw value of an `OpenTelemetryContextKeys` case; both managers key their
      per-activity dictionaries by this string. */
  type Key = string

  /** A span identifier (eight bytes in the SDK; only equality matters here). */
  type SpanId = nat

  /** A context value. In the SDK it is a span object; the managers use only its
      identity (as the key of the side table), its `spanId` (compared on removal),
      and whether its `parentContext` is nil. `ident` stands for the object's
      identity, so two distinct span objects are never equal as values. */
  datatype ContextValue = ContextValue(ident: nat, spanId: SpanId, parentContext: Option<SpanId>)
  {
    /** A root value starts a new trace: its parent context is nil. */
    predicate IsRoot() {
      parentContext.None?
    }
  }
}
