/**
 * The fixed asset inventory and the chaos oracle, which picks one asset and
 * predicts its failure.
 */
module Inventory {
  import opened Wrappers
  import opened Text
  import opened Generation

  datatype AssetStatus = Online | Warning | Offline

  /** One inventory asset; `kind` is the asset's `type`. */
  datatype Asset = Asset(id: string, name: string, kind: string, status: AssetStatus, region: string)

  const INVENTORY: seq<Asset> := [
    Asset("SRV-001", "Cluster Kubernetes Alpha", "Servidor", Online, "us-east-1"),
    Asset("DB-PROD", "PostgreSQL Primary", "Database", Online, "sa-east-1"),
    Asset("FW-EDGE", "Firewall Perimetral", "Security", Warning, "global"),
    Asset("LB-HTTP", "Load Balancer Nginx", "Network", Online, "sa-east-1"),
    Asset("BKP-SYS", "Backup System Cold", "Storage", Offline, "us-west-2")
  ]

  /** The inventory as listed: the five fixed assets, unchanged, with distinct identifiers. */
  function ListInventory(): (r: seq<Asset>)
    ensures r == INVENTORY && |r| == 5
    ensures forall i, j :: 0 <= i < j < |r| ==> r[i].id != r[j].id
  {
    INVENTORY
  }

  /** The literal pieces of the offline prediction, around the name, region and type. */
  const CHAOS_FALLBACK_PIECES: seq<string> := [
    "\n    <h3>🔮 Visão do Caos (Simulação)</h3>\n    <p>Eu prevejo que o <b>",
    "</b> sofrerá uma falha catastrófica em breve.</p>\n    <ul>\n        <li><b>Cenário:</b> Um estagiário vai rodar um UPDATE sem WHERE.</li>\n        <li><b>Impacto:</b> Perda total de integridade de dados na região ",
    ".</li>\n        <li><b>Pergunta SRE:</b> Se isso acontecesse agora, seu backup de ",
    " estaria pronto?</li>\n    </ul>\n    "
  ]

  /** The literal pieces of the oracle's prompt, around the name, type and region. */
  const CHAOS_PROMPT_PIECES: seq<string> := [
    "\n        Você é o \"Oráculo do Caos\", uma IA que prevê desastres de TI bizarros e criativos para treinar equipes.\n        Crie um cenário hipotético de falha catastrófica para este ativo:\n        Nome: ",
    " | Tipo: ",
    " | Região: ",
    "\n        \n        Seja criativo, técnico e levemente dramático.\n        Responda em HTML (<h3> para título, <p> para texto, <ul><li> para detalhes).\n        Termine com uma pergunta desafiadora para o engenheiro.\n        "
  ]

  /** The offline prediction: it names the asset, its region and its type. */
  function ChaosFallback(target: Asset): (text: string)
    ensures |text| > 0
    ensures Contains(text, target.name) && Contains(text, target.region) && Contains(text, target.kind)
  {
    var values := [target.name, target.region, target.kind];
    assert |Interpolate(CHAOS_FALLBACK_PIECES, values)| >= |CHAOS_FALLBACK_PIECES[0]|;
    InterpolateShowsValue(CHAOS_FALLBACK_PIECES, values, 0);
    InterpolateShowsValue(CHAOS_FALLBACK_PIECES, values, 1);
    InterpolateShowsValue(CHAOS_FALLBACK_PIECES, values, 2);
    Interpolate(CHAOS_FALLBACK_PIECES, values)
  }

  /** The oracle's prompt: it names the asset, its type and its region. */
  function ChaosPrompt(target: Asset): (prompt: string)
    ensures Contains(prompt, target.name) && Contains(prompt, target.kind) && Contains(prompt, target.region)
  {
    var values := [target.name, target.kind, target.region];
    InterpolateShowsValue(CHAOS_PROMPT_PIECES, values, 0);
    InterpolateShowsValue(CHAOS_PROMPT_PIECES, values, 1);
    InterpolateShowsValue(CHAOS_PROMPT_PIECES, values, 2);
    Interpolate(CHAOS_PROMPT_PIECES, values)
  }

  /**
   * The oracle's prediction for the asset at position `choice` of the
   * inventory (the uniformly random pick): the response text, possibly
   * absent, when a client exists and its call succeeds, otherwise the
   * fallback naming that asset's name, region and type.
   */
  function ChaosOracle(choice: nat, client: Client): (prediction: Option<string>)
    requires choice < |INVENTORY|
    ensures Succeeds(client, ChaosPrompt(INVENTORY[choice])) ==>
      prediction == client.generate(ChaosPrompt(INVENTORY[choice])).text
    ensures !Succeeds(client, ChaosPrompt(INVENTORY[choice])) ==>
      && prediction.Some?
      && Contains(prediction.value, INVENTORY[choice].name)
      && Contains(prediction.value, INVENTORY[choice].region)
      && Contains(prediction.value, INVENTORY[choice].kind)
  {
    var target := INVENTORY[choice];
    WithFallback(client, ChaosPrompt(target), ChaosFallback(target))
  }
}
