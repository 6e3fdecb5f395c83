/**
 * The configuration of one participant of a session, as the scenario
 * catalogue declares it and as the session engine receives it.
 */
module Agents {

  /** `{ id, name, model, provider, color, systemPrompt }` */
  datatype Agent = Agent(
    id: string,
    name: string,
    model: string,
    provider: string,
    color: string,
    systemPrompt: string)
}
