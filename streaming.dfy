/** `stream_ai_response` and the `/ws/chat` loop (ai_bridge.py): a completed
    answer is cut into one chunk per word, each followed by a space, and every
    inbound request is answered by its chunks and one "complete" event. The
    per-chunk delay and the timestamps are not modelled. */
module Streaming {
  import opened Text
  import opened Messages
  import opened ContextStore
  import opened Registry
  import opened Router

  /** `{"type": "chunk", "content": ...}` and `{"type": "complete"}`. */
  datatype Event = Chunk(content: string) | Done

  /** The chunk of one word. */
  function ChunkOf(w: string): string {
    w + " "
  }

  /** `stream_ai_response` after the completion: `for word in content.split():
      yield word + " "`. */
  method StreamChunks(content: string) returns (chunks: seq<string>)
    ensures |chunks| == |Words(content)|
    ensures forall i :: 0 <= i < |chunks| ==> chunks[i] == Words(content)[i] + " "
  {
    var words := Words(content);
    chunks := [];
    for i := 0 to |words|
      invariant |chunks| == i
      invariant forall k :: 0 <= k < i ==> chunks[k] == words[k] + " "
    {
      chunks := chunks + [ChunkOf(words[i])];
    }
  }

  /** The chunks of `content`, as `StreamChunks` yields them. */
  function Chunks(content: string): seq<string> {
    seq(|Words(content)|, i requires 0 <= i < |Words(content)| => ChunkOf(Words(content)[i]))
  }

  /** The events one inbound request produces after a successful completion. */
  function Events(content: string): seq<Event> {
    seq(|Chunks(content)|, i requires 0 <= i < |Chunks(content)| => Chunk(Chunks(content)[i])) + [Done]
  }

  /** One request gives exactly one chunk event per word, in order, then a
      single "complete" event. */
  lemma EventsSpec(content: string)
    ensures |Events(content)| == |Words(content)| + 1
    ensures Events(content)[|Words(content)|] == Done
    ensures forall i :: 0 <= i < |Words(content)| ==> Events(content)[i] == Chunk(Words(content)[i] + " ")
  {
  }

  lemma {:induction false} WordsOfSpaced(ws: seq<string>)
    requires forall k :: 0 <= k < |ws| ==> IsWord(ws[k])
    ensures Words(Concat(seq(|ws|, i requires 0 <= i < |ws| => ChunkOf(ws[i])))) == ws
  {
    var cs := seq(|ws|, i requires 0 <= i < |ws| => ChunkOf(ws[i]));
    if ws == [] {
      assert cs == [];
    } else {
      var rest := seq(|ws| - 1, i requires 0 <= i < |ws| - 1 => ChunkOf(ws[1..][i]));
      assert cs[1..] == rest;
      var tail := Concat(rest);
      assert Concat(cs) == ws[0] + ([' '] + tail);
      ScanOverWord(ws[0], [' '] + tail, []);
      assert [] + ws[0] == ws[0];
      assert ([' '] + tail)[1..] == tail;
      WordsOfSpaced(ws[1..]);
    }
  }

  /** A client that glues the chunks together and splits the text again gets
      exactly the words of the answer back: only whitespace is lost. */
  lemma ChunksRejoin(content: string)
    ensures Words(Concat(Chunks(content))) == Words(content)
  {
    var ws := Words(content);
    assert Chunks(content) == seq(|ws|, i requires 0 <= i < |ws| => ChunkOf(ws[i]));
    WordsAreWords(content);
    WordsOfSpaced(ws);
  }

  lemma ScanWordThenSpace(w: string, rest: string)
    requires IsWord(w)
    ensures Scan(w + ([' '] + rest), []) == [w] + Scan(rest, [])
  {
    ScanOverWord(w, [' '] + rest, []);
    assert [] + w == w;
    assert ([' '] + rest)[1..] == rest;
  }

  /** The answer "a b c" streams as three chunks and then "complete". */
  lemma ThreeWordExample()
    ensures Events("a b c") == [Chunk("a "), Chunk("b "), Chunk("c "), Done]
  {
    assert Words("a b c") == ["a", "b", "c"] by {
      assert "a b c" == "a" + ([' '] + "b c");
      ScanWordThenSpace("a", "b c");
      assert "b c" == "b" + ([' '] + "c");
      ScanWordThenSpace("b", "c");
      ScanOverWord("c", [], []);
      assert "c" + [] == "c";
      assert [] + "c" == "c";
    }
    var c := Chunks("a b c");
    assert |c| == 3 && c[0] == "a " && c[1] == "b " && c[2] == "c ";
    assert c == ["a ", "b ", "c "];
  }

  /** What a `/ws/chat` connection sends for a sequence of inbound requests,
      whether it has closed, and the contexts it leaves. */
  datatype Session = Session(events: seq<Event>, closed: bool, contexts: map<string, seq<Message>>)

  /** One request on the connection: its events, whether it stops the loop
      (a request that fails validation, or whose completion raises, closes
      the connection), and the contexts it leaves. */
  function Step(env: Env, contexts: map<string, seq<Message>>, request: ChatRequest,
                call: (string, seq<Message>) -> Upstream): Session
  {
    if !ValidRequest(request) then Session([], true, contexts)
    else
      var t := Complete(env, contexts, request, call);
      if t.result.Err? then Session([], true, t.contexts)
      else Session(Events(t.result.value.content), false, t.contexts)
  }

  /** The connection loop: requests are answered in order until one stops it. */
  function Serve(env: Env, contexts: map<string, seq<Message>>, inbound: seq<ChatRequest>,
                 call: (string, seq<Message>) -> Upstream): Session
    decreases |inbound|
  {
    if inbound == [] then Session([], false, contexts)
    else
      var s := Step(env, contexts, inbound[0], call);
      if s.closed then s
      else
        var rest := Serve(env, s.contexts, inbound[1..], call);
        Session(s.events + rest.events, rest.closed, rest.contexts)
  }

  /** The send loop of one answer: one chunk event per chunk, in order. */
  method SendChunks(events: seq<Event>, chunks: seq<string>) returns (sent: seq<Event>)
    ensures sent == events + seq(|chunks|, j requires 0 <= j < |chunks| => Chunk(chunks[j]))
  {
    sent := events;
    for k := 0 to |chunks|
      invariant sent == events + seq(k, j requires 0 <= j < k => Chunk(chunks[j]))
    {
      sent := sent + [Chunk(chunks[k])];
    }
  }

  /** One request: validate it, complete it, stream its chunks, then send
      "complete"; a failure closes the connection. */
  method AnswerRequest(cm: ContextManager, env: Env, request: ChatRequest,
                       call: (string, seq<Message>) -> Upstream)
    returns (events: seq<Event>, closed: bool)
    requires cm.Valid()
    modifies cm
    ensures cm.Valid()
    ensures Session(events, closed, cm.contexts) == Step(env, old(cm.contexts), request, call)
  {
    if !ValidRequest(request) {
      return [], true;
    }
    var response := ChatCompletion(cm, env, request, call);
    if response.Err? {
      return [], true;
    }
    var chunks := StreamChunks(response.value.content);
    assert chunks == Chunks(response.value.content);
    events := SendChunks([], chunks);
    events := events + [Done];
    closed := false;
  }

  /** `websocket_chat`: reads requests one at a time and answers each. */
  method WebSocketChat(cm: ContextManager, env: Env, inbound: seq<ChatRequest>,
                       call: (string, seq<Message>) -> Upstream)
    returns (events: seq<Event>, closed: bool)
    requires cm.Valid()
    modifies cm
    ensures cm.Valid()
    ensures Session(events, closed, cm.contexts) == Serve(env, old(cm.contexts), inbound, call)
  {
    ghost var whole := Serve(env, cm.contexts, inbound, call);
    events := [];
    closed := false;
    var i := 0;
    while i < |inbound|
      invariant 0 <= i <= |inbound|
      invariant cm.Valid()
      invariant whole.events == events + Serve(env, cm.contexts, inbound[i..], call).events
      invariant whole.closed == Serve(env, cm.contexts, inbound[i..], call).closed
      invariant whole.contexts == Serve(env, cm.contexts, inbound[i..], call).contexts
    {
      var answer, stop := AnswerRequest(cm, env, inbound[i], call);
      assert inbound[i..][0] == inbound[i];
      assert inbound[i..][1..] == inbound[i + 1..];
      events := events + answer;
      if stop {
        closed := true;
        return;
      }
      i := i + 1;
    }
    assert inbound[i..] == [];
    assert events + [] == events;
  }

  /** Requests that all complete give, in order, each answer's chunks and
      "complete" event, and leave the connection open. */
  lemma {:induction false} ServeAllSucceed(env: Env, contexts: map<string, seq<Message>>,
                                           inbound: seq<ChatRequest>, call: (string, seq<Message>) -> Upstream)
    requires forall k :: 0 <= k < |inbound| ==> ValidRequest(inbound[k])
    requires !Serve(env, contexts, inbound, call).closed
    ensures |Serve(env, contexts, inbound, call).events| >= |inbound|
    ensures inbound != [] ==>
      var t := Complete(env, contexts, inbound[0], call);
      t.result.Ok? && Serve(env, contexts, inbound, call).events[..|Events(t.result.value.content)|]
                      == Events(t.result.value.content)
    decreases |inbound|
  {
    if inbound != [] {
      var t := Complete(env, contexts, inbound[0], call);
      ServeAllSucceed(env, t.contexts, inbound[1..], call);
    }
  }
}
