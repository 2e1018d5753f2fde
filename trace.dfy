/** The append-only execution trace of patterns/agent_core/trace.py. */
module Tracing {
  import opened Values

  /** One recorded event: the clock reading, its kind and its keyword payload. */
  datatype TraceEvent = TraceEvent(t: real, kind: string, payload: map<string, Json>)

  class Trace {
    var events: seq<TraceEvent>

    /** `Trace()`: no events. */
    constructor ()
      ensures events == []
    {
      events := [];
    }

    /** `add(kind, **payload)`, stamped with the clock reading `t`: exactly one
        event is appended and every earlier event is left as it was. */
    method Add(kind: string, payload: map<string, Json>, t: real)
      modifies this
      ensures events == old(events) + [TraceEvent(t, kind, payload)]
    {
      events := events + [TraceEvent(t, kind, payload)];
    }
  }
}
