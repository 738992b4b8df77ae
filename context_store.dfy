/** `ContextManager` (ai_bridge.py): conversation histories keyed by a context
    id, each kept to its most recent `MaxRetained` messages. */
module ContextStore {
  import opened Messages

  /** How many messages a context keeps (`[-20:]`). */
  const MaxRetained: nat := 20

  /** `ms[-20:]`: the most recent `MaxRetained` messages of `ms`. */
  function Window(ms: seq<Message>): seq<Message> {
    if |ms| <= MaxRetained then ms else ms[|ms| - MaxRetained..]
  }

  /** `contexts.get(id, [])`. */
  function Lookup(contexts: map<string, seq<Message>>, id: string): seq<Message> {
    if id in contexts then contexts[id] else []
  }

  /** The map after `update_context(id, ms)`. */
  function Updated(contexts: map<string, seq<Message>>, id: string, ms: seq<Message>): map<string, seq<Message>> {
    contexts[id := Window(Lookup(contexts, id) + ms)]
  }

  /** The map after `clear_context(id)`. */
  function Cleared(contexts: map<string, seq<Message>>, id: string): map<string, seq<Message>> {
    contexts - {id}
  }

  /** Every stored history respects the retention bound. */
  predicate Bounded(contexts: map<string, seq<Message>>) {
    forall id :: id in contexts ==> |contexts[id]| <= MaxRetained
  }

  /** The window keeps the newest messages, in order: it is the suffix of its
      input of length min(|ms|, MaxRetained). */
  lemma WindowIsNewestSuffix(ms: seq<Message>)
    ensures |Window(ms)| == if |ms| <= MaxRetained then |ms| else MaxRetained
    ensures Window(ms) == ms[|ms| - |Window(ms)|..]
  {
  }

  /** Truncating before appending changes nothing: the window of a window,
      extended, is the window of the whole history. */
  lemma WindowOfWindow(a: seq<Message>, b: seq<Message>)
    ensures Window(Window(a) + b) == Window(a + b)
  {
    if |a| > MaxRetained {
      var k := |a| - MaxRetained;
      assert Window(a) + b == (a + b)[k..];
      WindowOfLongSuffix(a + b, k);
    }
  }

  lemma WindowOfLongSuffix(x: seq<Message>, k: nat)
    requires k <= |x| && |x| - k >= MaxRetained
    ensures Window(x[k..]) == Window(x)
  {
    assert x[k..][|x| - k - MaxRetained..] == x[|x| - MaxRetained..];
  }

  /** What `update_context` leaves behind: the target context is the window of
      its old contents (empty when absent) followed by `ms`, it respects the
      bound, and every other context is untouched. */
  lemma UpdatedSpec(contexts: map<string, seq<Message>>, id: string, ms: seq<Message>, other: string)
    requires Bounded(contexts)
    ensures Bounded(Updated(contexts, id, ms))
    ensures Lookup(Updated(contexts, id, ms), id) == Window(Lookup(contexts, id) + ms)
    ensures id !in contexts ==> Lookup(Updated(contexts, id, ms), id) == Window(ms)
    ensures other != id ==> Lookup(Updated(contexts, id, ms), other) == Lookup(contexts, other)
    ensures Updated(contexts, id, ms).Keys == contexts.Keys + {id}
  {
    assert [] + ms == ms;
  }

  /** What `clear_context` leaves behind: the cleared id reads as empty, the
      others are untouched, an absent id is a no-op and clearing twice is the
      same as clearing once. */
  lemma ClearedSpec(contexts: map<string, seq<Message>>, id: string, other: string)
    ensures Lookup(Cleared(contexts, id), id) == []
    ensures other != id ==> Lookup(Cleared(contexts, id), other) == Lookup(contexts, other)
    ensures id !in contexts ==> Cleared(contexts, id) == contexts
    ensures Cleared(Cleared(contexts, id), id) == Cleared(contexts, id)
    ensures Bounded(contexts) ==> Bounded(Cleared(contexts, id))
  {
  }

  class ContextManager {
    var contexts: map<string, seq<Message>>

    ghost predicate Valid()
      reads this
    {
      Bounded(contexts)
    }

    constructor ()
      ensures Valid() && contexts == map[]
    {
      contexts := map[];
    }

    /** `get_context`: the stored history, or the empty list for an unknown id. */
    method GetContext(id: string) returns (ms: seq<Message>)
      ensures id in contexts ==> ms == contexts[id]
      ensures id !in contexts ==> ms == []
      ensures Valid() ==> |ms| <= MaxRetained
    {
      if id in contexts {
        ms := contexts[id];
      } else {
        ms := [];
      }
    }

    /** `update_context`: create the entry if absent, extend it, keep the last 20. */
    method UpdateContext(id: string, ms: seq<Message>)
      requires Valid()
      modifies this
      ensures Valid()
      ensures contexts == Updated(old(contexts), id, ms)
    {
      if id !in contexts {
        contexts := contexts[id := []];
      }
      contexts := contexts[id := contexts[id] + ms];
      contexts := contexts[id := Window(contexts[id])];
    }

    /** `clear_context`: delete the entry when present. */
    method ClearContext(id: string)
      requires Valid()
      modifies this
      ensures Valid()
      ensures contexts == Cleared(old(contexts), id)
    {
      if id in contexts {
        contexts := map k | k in contexts && k != id :: contexts[k];
      }
    }
  }
}
