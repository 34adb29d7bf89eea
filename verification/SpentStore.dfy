/** The durable one-time store: one marker per key, created atomically only if absent. */
module SpentStore {
  /** What the disk does during one call. `WriteFails` is a failure after the marker has been created. */
  datatype Health = Healthy | Unreachable | WriteFails

  datatype Answer = First | Replay | Unavailable

  /** `FileSpentStore.try_spend` on the set of markers. */
  function AnswerOf(markers: set<string>, key: string, health: Health): Answer {
    if health == Unreachable then Unavailable
    else if key in markers then Replay
    else if health == WriteFails then Unavailable
    else First
  }

  function MarkersAfter(markers: set<string>, key: string, health: Health): set<string> {
    if health == Unreachable then markers else markers + {key}
  }

  class SharedStore {
    var markers: set<string>

    constructor (markers: set<string>)
      ensures this.markers == markers
    {
      this.markers := markers;
    }

    method TrySpend(key: string, health: Health) returns (answer: Answer)
      modifies this
      ensures answer == AnswerOf(old(markers), key, health)
      ensures markers == MarkersAfter(old(markers), key, health)
    {
      if health == Unreachable { return Unavailable; }
      if key in markers { return Replay; }
      markers := markers + {key};
      if health == WriteFails { return Unavailable; }
      return First;
    }
  }

  /** The in-memory store: the same answers from a disk that never fails. */
  class InMemorySpentStore {
    var spent: set<string>

    constructor ()
      ensures spent == {}
    {
      spent := {};
    }

    method TrySpend(key: string) returns (first: bool)
      modifies this
      ensures first <==> AnswerOf(old(spent), key, Healthy) == First
      ensures spent == MarkersAfter(old(spent), key, Healthy)
    {
      if key in spent { return false; }
      spent := spent + {key};
      return true;
    }
  }
}
