/** `get_conversation_schema` (promptify/utils/conversation_utils.py). */
module Conversation {
  import opened PyValues

  datatype Participant = Participant(name: string, isBot: bool)

  /** The `"llm"` entry: the model's name and the metadata it was given. */
  datatype Llm = Llm(name: string, metaData: map<string, PyValue>)

  /** The schema dictionary, one field per key. */
  datatype ConversationSchema = ConversationSchema(
    conversationId: string,
    startTime: string,
    llm: Llm,
    participants: seq<Participant>,
    messages: seq<PyValue>)

  /**
   * `get_conversation_schema(conversation_id, start_time, llm_name, **llm_metadata)`:
   * `api_key` is popped from the keyword arguments, whatever its value, and
   * every other entry is kept as given.
   */
  function GetConversationSchema(conversationId: string, startTime: string, llmName: string,
                                 llmMetadata: map<string, PyValue>): (r: ConversationSchema)
    ensures r.conversationId == conversationId && r.startTime == startTime && r.llm.name == llmName
    ensures "api_key" !in r.llm.metaData
    ensures r.llm.metaData.Keys == llmMetadata.Keys - {"api_key"}
    ensures forall k :: k in r.llm.metaData ==> r.llm.metaData[k] == llmMetadata[k]
    ensures r.participants == [Participant("User", false), Participant("Assistant", true)]
    ensures r.messages == []
  {
    var metaData := llmMetadata - {"api_key"};
    ConversationSchema(conversationId, startTime, Llm(llmName, metaData),
                       [Participant("User", false), Participant("Assistant", true)], [])
  }

  /** Whether an `api_key` is passed, and with what value, makes no difference to the schema. */
  lemma ApiKeyIgnored(conversationId: string, startTime: string, llmName: string,
                      llmMetadata: map<string, PyValue>, apiKey: PyValue)
    ensures GetConversationSchema(conversationId, startTime, llmName, llmMetadata["api_key" := apiKey])
         == GetConversationSchema(conversationId, startTime, llmName, llmMetadata - {"api_key"})
  {
    assert llmMetadata["api_key" := apiKey] - {"api_key"} == (llmMetadata - {"api_key"}) - {"api_key"};
  }

  /** Building a schema again from a schema's own metadata gives the same schema. */
  lemma SchemaMetadataStable(conversationId: string, startTime: string, llmName: string,
                             llmMetadata: map<string, PyValue>)
    ensures var s := GetConversationSchema(conversationId, startTime, llmName, llmMetadata);
      GetConversationSchema(conversationId, startTime, llmName, s.llm.metaData) == s
  {
    var m := llmMetadata - {"api_key"};
    assert m - {"api_key"} == m;
  }
}
