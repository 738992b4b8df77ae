/** `ChatMessage` (ai_bridge.py): a role and a content, both free text. */
module Messages {
  import opened Json

  datatype Message = Message(role: string, content: string)

  /** The reply the gateway records for the assistant after a completion. */
  function Assistant(content: string): Message {
    Message("assistant", content)
  }

  /** `msg.dict()`: the message as a JSON object with keys "role" and "content". */
  function ToJson(m: Message): Json {
    JObj(map["role" := JStr(m.role), "content" := JStr(m.content)])
  }

  /** The inverse of `ToJson`, defined on objects holding two strings. */
  function FromJson(v: Json): (r: Wrappers.Option<Message>)
  {
    if v.JObj? && "role" in v.fields && "content" in v.fields
       && v.fields["role"].JStr? && v.fields["content"].JStr?
    then Wrappers.Some(Message(v.fields["role"].s, v.fields["content"].s))
    else Wrappers.None
  }

  /** `[msg.dict() for msg in messages]`. */
  function ListToJson(ms: seq<Message>): (r: seq<Json>)
    ensures |r| == |ms|
  {
    seq(|ms|, i requires 0 <= i < |ms| => ToJson(ms[i]))
  }

  /** Decoding a message list element by element; `None` if any element is not
      a message object. */
  function ListFromJson(vs: seq<Json>): Wrappers.Option<seq<Message>>
  {
    if vs == [] then Wrappers.Some([])
    else match (FromJson(vs[0]), ListFromJson(vs[1..]))
      case (Some(m), Some(rest)) => Wrappers.Some([m] + rest)
      case _ => Wrappers.None
  }

  /** The message list sent to a provider can be read back unchanged. */
  lemma {:induction false} ListRoundTrip(ms: seq<Message>)
    ensures ListFromJson(ListToJson(ms)) == Wrappers.Some(ms)
  {
    if ms != [] {
      assert ListToJson(ms)[1..] == ListToJson(ms[1..]);
      assert FromJson(ListToJson(ms)[0]) == Wrappers.Some(ms[0]);
      ListRoundTrip(ms[1..]);
      assert [ms[0]] + ms[1..] == ms;
    }
  }
}
