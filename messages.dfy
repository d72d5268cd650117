/**
 * The flat key/value payloads that travel over the message bus, the topic
 * names, and the two Python string tests the handlers use: truthiness of an
 * optional string and the substring operator `in`.
 */
module Messages {
  import opened Wrappers

  /** Values of the `acao` field of a station event. */
  const InicioCarga: string := "inicio_carga"
  const FimCarga: string := "fim_carga"

  /** Values of the `status` field of a station status record. */
  const Ocupado: string := "ocupado"
  const Livre: string := "livre"
  const Offline: string := "offline"

  /**
   * A decoded JSON object as the consumers see it: every field a consumer
   * looks up with `.get`, `None` when the key is absent (or null). Other
   * keys are not represented, so the gateway's stored records hold only
   * these seven fields.
   */
  datatype Payload = Payload(
    carregador: Option<string>,
    carro: Option<string>,
    acao: Option<string>,
    timestamp: Option<int>,
    energiaConsumidaKwh: Option<real>,
    status: Option<string>,
    carroConectado: Option<string>)

  /** Python truthiness of an optional string: `None` and `""` are false. */
  predicate Truthy(o: Option<string>)
  {
    o.Some? && o.value != ""
  }

  /** Python's `sub in s` on strings: `sub` occurs somewhere in `s`. */
  predicate Contains(s: string, sub: string)
    decreases |s|
  {
    (|sub| <= |s| && s[..|sub|] == sub) || (|s| > 0 && Contains(s[1..], sub))
  }

  /** An occurrence at a known position is enough for `Contains`. */
  lemma {:induction false} ContainsAt(s: string, sub: string, i: nat)
    requires i + |sub| <= |s| && s[i..i + |sub|] == sub
    ensures Contains(s, sub)
    decreases i
  {
    if i > 0 {
      assert s[1..][i - 1..i - 1 + |sub|] == s[i..i + |sub|];
      ContainsAt(s[1..], sub, i - 1);
    }
  }

  /** Topic a station publishes its events on. */
  function EventosTopic(id: string): string
  {
    "carregadores/" + id + "/eventos"
  }

  /** Topic a station publishes its (retained) status on. */
  function StatusTopic(id: string): string
  {
    "carregadores/" + id + "/status"
  }

  /** Topic the billing service publishes transactions on. */
  const TransacoesTopic: string := "billing/transacoes"

  /** Each station topic contains its kind and the station id as substrings. */
  lemma TopicsContainTheirKind(id: string)
    ensures Contains(StatusTopic(id), "status") && Contains(StatusTopic(id), id)
    ensures Contains(EventosTopic(id), "eventos") && Contains(EventosTopic(id), id)
  {
    var prefix := "carregadores/";
    assert StatusTopic(id)[|prefix| + |id| + 1..|prefix| + |id| + 1 + |"status"|] == "status";
    ContainsAt(StatusTopic(id), "status", |prefix| + |id| + 1);
    assert StatusTopic(id)[|prefix|..|prefix| + |id|] == id;
    ContainsAt(StatusTopic(id), id, |prefix|);
    assert EventosTopic(id)[|prefix| + |id| + 1..|prefix| + |id| + 1 + |"eventos"|] == "eventos";
    ContainsAt(EventosTopic(id), "eventos", |prefix| + |id| + 1);
    assert EventosTopic(id)[|prefix|..|prefix| + |id|] == id;
    ContainsAt(EventosTopic(id), id, |prefix|);
  }
}
