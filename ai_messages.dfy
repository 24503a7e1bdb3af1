/** The conversation message shape of the `ai` SDK, `{ role, content }`,
    that both chat surfaces hand to the model call. */
module AiMessages {
  datatype Role = User | Assistant

  datatype ModelMessage = ModelMessage(role: Role, content: string)
}
