/**
 * Explaining one stored incident: a first-match lookup by identifier, then
 * the generator's text or the offline fallback.
 */
module Explain {
  import opened Wrappers
  import opened Incidents
  import opened Text
  import opened Generation

  /** The domain error surfaced to the caller as HTTP 404. */
  datatype ApiError = NotFound(status: nat, detail: string)

  const NOT_FOUND: ApiError := NotFound(404, "Incidente não encontrado")

  /** Position k holds the first (newest) incident with identifier `incId`. */
  ghost predicate IsFirstMatch(incidents: seq<Incident>, incId: string, k: nat) {
    && k < |incidents|
    && incidents[k].id == incId
    && forall j :: 0 <= j < k ==> incidents[j].id != incId
  }

  /** The position of the first incident with identifier `incId`, scanning newest first. */
  function FindFirst(incidents: seq<Incident>, incId: string): (r: Option<nat>)
    ensures r.None? <==> forall i :: 0 <= i < |incidents| ==> incidents[i].id != incId
    ensures r.Some? ==> IsFirstMatch(incidents, incId, r.value)
  {
    if incidents == [] then None
    else if incidents[0].id == incId then Some(0)
    else match FindFirst(incidents[1..], incId)
      case None => None
      case Some(k) => Some(k + 1)
  }

  /** In a well-numbered store, looking up the identifier of element i finds element i. */
  lemma FindFirstInWellNumbered(incidents: seq<Incident>, i: nat)
    requires WellNumbered(incidents) && i < |incidents|
    ensures FindFirst(incidents, incidents[i].id) == Some(i)
  {
    WellNumberedIdsDistinct(incidents);
  }

  /** The literal pieces of the offline explanation, around the service and the severity. */
  const EXPLAIN_FALLBACK_PIECES: seq<string> := [
    "\n    <p><b>🤖 Análise (Modo Offline):</b></p>\n    <p>O serviço <b>",
    "</b> gerou um alerta de severidade <b>",
    "</b>.</p>\n    <ul>\n        <li><b>Diagnóstico:</b> O sistema de IA não pôde ser contatado.</li>\n        <li><b>Ação Recomendada:</b> Verifique os logs via SSH.</li>\n    </ul>\n    "
  ]

  /** The literal pieces of the prompt, around the identifier, service, severity and summary. */
  const EXPLAIN_PROMPT_PIECES: seq<string> := [
    "\n        Aja como um SRE Sênior. Analise este incidente:\n        ID: ",
    " | Serviço: ",
    " | Severidade: ",
    " | Resumo: ",
    "\n        Responda APENAS em HTML simples (<p>, <b>, <ul>, <li>).\n        "
  ]

  /** The offline explanation: it names the incident's service and severity. */
  function ExplainFallback(inc: Incident): (text: string)
    ensures |text| > 0
    ensures Contains(text, inc.service) && Contains(text, inc.severity)
  {
    var values := [inc.service, inc.severity];
    assert |Interpolate(EXPLAIN_FALLBACK_PIECES, values)| >= |EXPLAIN_FALLBACK_PIECES[0]|;
    InterpolateShowsValue(EXPLAIN_FALLBACK_PIECES, values, 0);
    InterpolateShowsValue(EXPLAIN_FALLBACK_PIECES, values, 1);
    Interpolate(EXPLAIN_FALLBACK_PIECES, values)
  }

  /** The prompt sent to the generator: it names the identifier, service, severity and summary. */
  function ExplainPrompt(inc: Incident): (prompt: string)
    ensures Contains(prompt, inc.id) && Contains(prompt, inc.service)
    ensures Contains(prompt, inc.severity) && Contains(prompt, inc.summary)
  {
    var values := [inc.id, inc.service, inc.severity, inc.summary];
    InterpolateShowsValue(EXPLAIN_PROMPT_PIECES, values, 0);
    InterpolateShowsValue(EXPLAIN_PROMPT_PIECES, values, 1);
    InterpolateShowsValue(EXPLAIN_PROMPT_PIECES, values, 2);
    InterpolateShowsValue(EXPLAIN_PROMPT_PIECES, values, 3);
    Interpolate(EXPLAIN_PROMPT_PIECES, values)
  }

  /**
   * NotFound exactly when no incident has identifier `incId`; otherwise the
   * explanation of the first match, generated (possibly absent, when the
   * response has no text) or fallen back.
   */
  function ExplainIncident(incidents: seq<Incident>, incId: string, client: Client): (r: Result<Option<string>, ApiError>)
    ensures r.Err? <==> forall i :: 0 <= i < |incidents| ==> incidents[i].id != incId
    ensures r.Err? ==> r.error == NOT_FOUND
    ensures forall k: nat :: IsFirstMatch(incidents, incId, k) ==>
      r == Ok(WithFallback(client, ExplainPrompt(incidents[k]), ExplainFallback(incidents[k])))
  {
    match FindFirst(incidents, incId)
    case None => Err(NOT_FOUND)
    case Some(k) =>
      var inc := incidents[k];
      Ok(WithFallback(client, ExplainPrompt(inc), ExplainFallback(inc)))
  }

  /**
   * With no client, or when the call fails, a known incident still gets a
   * non-empty explanation, and it names the incident's service and severity.
   */
  lemma ExplainOffline(incidents: seq<Incident>, incId: string, client: Client, k: nat)
    requires IsFirstMatch(incidents, incId, k)
    requires !Succeeds(client, ExplainPrompt(incidents[k]))
    ensures ExplainIncident(incidents, incId, client) == Ok(Some(ExplainFallback(incidents[k])))
    ensures |ExplainIncident(incidents, incId, client).value.value| > 0
    ensures Contains(ExplainIncident(incidents, incId, client).value.value, incidents[k].service)
    ensures Contains(ExplainIncident(incidents, incId, client).value.value, incidents[k].severity)
  {
  }
}
