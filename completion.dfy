/** The payload of a chat-completion call: role-tagged turns, the optional search
    extension body, and the request that carries them. */
module Completion {
  import opened Wrappers

  const SystemRole: string := "system"
  const UserRole: string := "user"

  /** One `{"role": ..., "content": ...}` turn. Turns of a caller's history are taken
      as such values and forwarded untouched. */
  datatype Message = Message(role: string, content: string)

  /** The `parameters` object of a search data source. */
  datatype SearchParameters = SearchParameters(endpoint: string, key: string, indexName: string)

  /** One entry of `dataSources`; `kind` is its `type` field. */
  datatype DataSource = DataSource(kind: string, parameters: SearchParameters)

  /** The `extra_body` sent to the extensions client. */
  datatype ExtensionConfig = ExtensionConfig(dataSources: seq<DataSource>)

  /** What `chat.completions.create` is given (sampling constants aside). */
  datatype ChatRequest = ChatRequest(model: string, messages: seq<Message>, extraBody: Option<ExtensionConfig>)
}
