/** The conversation memory of rag/memory.py: per session, the questions
    asked and the answers given, in order. */
module Memory {
  import opened Wrappers

  /** `{"question": ..., "answer": ...}`. */
  datatype Interaction = Interaction(question: string, answer: string)

  /** The earliest interaction asking `query`. */
  function FirstMatch(s: seq<Interaction>, query: string): (r: Option<Interaction>)
    ensures r.None? <==> forall i :: 0 <= i < |s| ==> s[i].question != query
    ensures r.Some? ==> exists i :: 0 <= i < |s| && s[i] == r.value && r.value.question == query &&
                                    forall j :: 0 <= j < i ==> s[j].question != query
  {
    if s == [] then None
    else if s[0].question == query then Some(s[0])
    else
      var r := FirstMatch(s[1..], query);
      assert forall i :: 1 <= i < |s| ==> s[i] == s[1..][i - 1];
      r
  }

  /** `Question: <q>\nAnswer: <a>\n`. */
  function Entry(x: Interaction): string {
    "Question: " + x.question + "\nAnswer: " + x.answer + "\n"
  }

  /** The entries of the interactions, in order. */
  function Context(s: seq<Interaction>): string {
    if s == [] then "" else Context(s[..|s| - 1]) + Entry(s[|s| - 1])
  }

  /** Storing an interaction extends the context by its entry. */
  lemma ContextAppend(s: seq<Interaction>, x: Interaction)
    ensures Context(s + [x]) == Context(s) + Entry(x)
  {
    assert (s + [x])[..|s + [x]| - 1] == s;
  }

  /** A later interaction is found only when no earlier one asks the same
      question. */
  lemma FirstMatchAppend(s: seq<Interaction>, x: Interaction, query: string)
    ensures FirstMatch(s + [x], query) ==
      if FirstMatch(s, query).Some? then FirstMatch(s, query)
      else if x.question == query then Some(x) else None
  {
    var t := s + [x];
    assert t[|s|] == x;
    assert forall i :: 0 <= i < |s| ==> t[i] == s[i];
  }

  class Memory {
    /** `self.memory`: the interactions of each session. */
    var memory: map<string, seq<Interaction>>

    /** The interactions of a session; a session never written to has none. */
    function Session(id: string): seq<Interaction>
      reads this
    {
      if id in memory then memory[id] else []
    }

    constructor ()
      ensures memory == map[]
    {
      memory := map[];
    }

    /** `store_interaction`: append to the end of that session only. */
    method StoreInteraction(id: string, query: string, answer: string)
      modifies this
      ensures memory == old(memory)[id := old(Session(id)) + [Interaction(query, answer)]]
      ensures Session(id) == old(Session(id)) + [Interaction(query, answer)]
      ensures forall other :: other != id ==> Session(other) == old(Session(other))
    {
      memory := memory[id := Session(id) + [Interaction(query, answer)]];
    }

    /** `retrieve_interaction`: the earliest interaction of the session that
        asks `query`, or nothing. */
    method RetrieveInteraction(id: string, query: string) returns (r: Option<Interaction>)
      ensures r == FirstMatch(Session(id), query)
    {
      var s := Session(id);
      var i := 0;
      while i < |s|
        invariant 0 <= i <= |s|
        invariant FirstMatch(s, query) == FirstMatch(s[i..], query)
      {
        assert s[i..][1..] == s[i + 1..];
        if s[i].question == query {
          return Some(s[i]);
        }
        i := i + 1;
      }
      return None;
    }

    /** `get_session_context`: the entries of the session, in order. */
    method SessionContext(id: string) returns (context: string)
      ensures context == Context(Session(id))
    {
      var s := Session(id);
      context := "";
      var i := 0;
      while i < |s|
        invariant 0 <= i <= |s|
        invariant context == Context(s[..i])
      {
        ContextAppend(s[..i], s[i]);
        assert s[..i + 1] == s[..i] + [s[i]];
        context := context + Entry(s[i]);
        i := i + 1;
      }
      assert s[..|s|] == s;
    }

    /** `clear_session`: empty that session only. */
    method ClearSession(id: string)
      modifies this
      ensures memory == old(memory)[id := []]
      ensures Session(id) == [] && Context(Session(id)) == ""
      ensures forall query :: FirstMatch(Session(id), query).None?
      ensures forall other :: other != id ==> Session(other) == old(Session(other))
    {
      memory := memory[id := []];
    }
  }
}
