/** Model of internal/memory/memory.go: the in-memory conversation store. Each method body runs
    under the store's mutex, so each call is one atomic step for concurrent runs. */
module MemoryStore {
  import opened Messages

  type Sessions = map<string, seq<Message>>

  /** A session that was never written reads as empty. */
  function SessionOf(sessions: Sessions, id: string): seq<Message> {
    if id in sessions then sessions[id] else []
  }

  class InMemory {
    var sessions: Sessions

    constructor ()
      ensures sessions == map[]
    {
      sessions := map[];
    }

    method Append(id: string, messages: seq<Message>)
      modifies this
      ensures sessions == old(sessions)[id := SessionOf(old(sessions), id) + messages]
    {
      var current := if id in sessions then sessions[id] else [];
      sessions := sessions[id := current + messages];
    }

    method List(id: string) returns (result: seq<Message>)
      ensures result == SessionOf(sessions, id)
    {
      result := if id in sessions then sessions[id] else [];
    }

    method Replace(id: string, messages: seq<Message>)
      modifies this
      ensures sessions == old(sessions)[id := messages]
    {
      sessions := sessions[id := messages];
    }
  }
}
