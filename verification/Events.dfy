/** Behaviour events as the shard receives them (service/base/behavior/model/entity.go). Times and
    durations are unbounded nanosecond counts, 0 being the Unix epoch. */
module Events {
  import opened Basics
  import opened Rules

  datatype Event = Event(
    eventID: string,
    memberID: string,
    behavior: string,
    fields: map<string, Value>,
    occurredAt: int)

  /** Go's zero time.Time, 1 January of year 1. */
  const ZERO_TIME: int := -62_135_596_800 * SECOND

  /** buildEvalFields: the raw fields plus the two that every event has. */
  function EvalFields(e: Event): map<string, Value> {
    e.fields["behavior" := Str(e.behavior)]["member_id" := Str(e.memberID)]
  }

  /** numericFieldsOf: what the buckets aggregate. */
  function Numbers(e: Event): map<string, real> {
    map f | f in e.fields && e.fields[f].Num? :: e.fields[f].n
  }

  /** The event identity contract: one ID, one event. */
  ghost predicate Identified(es: seq<Event>) {
    forall i, j :: 0 <= i < |es| && 0 <= j < |es| && es[i].eventID == es[j].eventID ==> es[i] == es[j]
  }

  ghost function EventSet(es: seq<Event>): set<Event> {
    set i | 0 <= i < |es| :: es[i]
  }

  lemma PrefixIsIdentified(es: seq<Event>, fs: seq<Event>)
    requires Identified(es + fs)
    ensures Identified(es)
  {
    assert forall i :: 0 <= i < |es| ==> (es + fs)[i] == es[i];
  }
}
