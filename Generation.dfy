/**
 * The optional text generator and the fallback rule that both the incident
 * explanation and the chaos oracle follow.
 */
module Generation {
  import opened Wrappers

  /**
   * What one call to the generator gives: its response text, or any failure
   * (network, quota, bad response). A response can carry no text at all
   * (`None`, for a blocked prompt), and that absence is passed on as it is.
   */
  datatype Generation = Generated(text: Option<string>) | GenerationFailed

  /**
   * The generator client: absent when the library or the credential is
   * missing or the client could not be built; otherwise a call from prompt
   * to outcome.
   */
  datatype Client = NoClient | Connected(generate: string -> Generation)

  /** The client exists and its call on `prompt` succeeded. */
  predicate Succeeds(client: Client, prompt: string) {
    client.Connected? && client.generate(prompt).Generated?
  }

  /**
   * The response text, verbatim and possibly absent, when a client exists
   * and its call succeeds; the fallback in every other case. No failure
   * escapes.
   */
  function WithFallback(client: Client, prompt: string, fallback: string): (r: Option<string>)
    ensures Succeeds(client, prompt) ==> r == client.generate(prompt).text
    ensures !Succeeds(client, prompt) ==> r == Some(fallback)
    ensures r == Some(fallback) || (client.Connected? && client.generate(prompt) == Generated(r))
  {
    if client.NoClient? then Some(fallback)
    else match client.generate(prompt)
      case Generated(text) => text
      case GenerationFailed => Some(fallback)
  }
}
