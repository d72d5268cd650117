/**
 * The billing service of backend/billing.py: no session tracking, every
 * well-formed `fim_carga` is billed at a fixed rate per kWh. Publishing a
 * transaction and the storage call are recorded, in order, as effects.
 */
module FixedRateBilling {
  import opened Wrappers
  import opened Messages
  import opened Lamport

  /** Price per kWh, in BRL. */
  const PrecoPorKwh: real := 0.75

  /** A transaction record as published on the transactions topic and stored. */
  datatype Transacao = Transacao(carro: string, carregador: Option<string>, energiaTotalKwh: real, custoTotalBrl: real, timestampTransacao: int)

  /** What processing does outside the service: a publish, then a storage call that succeeded or failed. */
  datatype Effect = Publicada(tx: Transacao) | Salvamento(tx: Transacao, ok: bool)

  datatype BillingState = BillingState(time: int, effects: seq<Effect>)

  /** A `fim_carga` event with a (truthy) car and an energy reading. */
  predicate Billable(p: Payload)
  {
    p.acao == Some(FimCarga) && Truthy(p.carro) && p.energiaConsumidaKwh.Some?
  }

  /** `processar_evento`: bill a complete `fim_carga`; anything else has no effect. */
  function Process(b: BillingState, evento: Payload, saved: bool): (r: BillingState)
    ensures !Billable(evento) ==> r == b
    ensures Billable(evento) ==> r.time == b.time + 1 && |r.effects| == |b.effects| + 2 && b.effects <= r.effects
  {
    if !Billable(evento) then b
    else
      var energia := evento.energiaConsumidaKwh.value;
      var t := b.time + 1;
      var tx := Transacao(evento.carro.value, evento.carregador, energia, energia * PrecoPorKwh, t);
      BillingState(t, b.effects + [Publicada(tx), Salvamento(tx, saved)])
  }

  /** `on_message`: only a decodable payload with a timestamp is merged into the clock and processed. */
  function Handle(b: BillingState, payload: Option<Payload>, saved: bool): (r: BillingState)
    ensures b.effects <= r.effects && b.time <= r.time
    ensures payload.Some? && payload.value.timestamp.Some? ==> r.time > payload.value.timestamp.value
  {
    match payload
    case None => b
    case Some(p) =>
      if p.timestamp.None? then b
      else Process(b.(time := Merge(b.time, p.timestamp.value)), p, saved)
  }

  /** The transactions published so far, in publish order. */
  function Transacoes(effects: seq<Effect>): (txs: seq<Transacao>)
    ensures |txs| <= |effects|
    decreases |effects|
  {
    if effects == [] then []
    else (if effects[0].Publicada? then [effects[0].tx] else []) + Transacoes(effects[1..])
  }

  /** Every listed transaction was published by one of the effects. */
  lemma {:induction false} TransacoesPublished(effects: seq<Effect>)
    ensures forall tx :: tx in Transacoes(effects) ==> Publicada(tx) in effects
    decreases |effects|
  {
    if effects != [] {
      TransacoesPublished(effects[1..]);
      assert effects == [effects[0]] + effects[1..];
    }
  }

  lemma {:induction false} TransacoesAppend(a: seq<Effect>, b: seq<Effect>)
    ensures Transacoes(a + b) == Transacoes(a) + Transacoes(b)
    decreases |a|
  {
    if a == [] {
      assert a + b == b;
    } else {
      assert (a + b)[0] == a[0];
      assert (a + b)[1..] == a[1..] + b;
      TransacoesAppend(a[1..], b);
    }
  }

  lemma TransacoesOfPublishAndSave(effects: seq<Effect>, tx: Transacao, ok: bool)
    ensures Transacoes(effects + [Publicada(tx), Salvamento(tx, ok)]) == Transacoes(effects) + [tx]
  {
    var pair := [Publicada(tx), Salvamento(tx, ok)];
    TransacoesAppend(effects, pair);
    assert pair[1..] == [Salvamento(tx, ok)] && pair[1..][1..] == [];
    assert Transacoes(pair[1..]) == [];
  }

  /** A message that gets billed: decodable, timestamped and billable. */
  predicate Billed(payload: Option<Payload>)
  {
    payload.Some? && payload.value.timestamp.Some? && Billable(payload.value)
  }

  /**
   * One message: a billed one publishes exactly one transaction copied from
   * the event, at the fixed rate, stamped by `send_event` after the merge (so
   * at least T + 2), then calls storage; a failed save retracts nothing. Any
   * other message publishes nothing, and one without a timestamp (or not
   * decodable) leaves the clock alone too.
   */
  lemma HandleBillsOnce(b: BillingState, payload: Option<Payload>, saved: bool)
    ensures var r := Handle(b, payload, saved);
      && (Billed(payload) ==>
            var p := payload.value;
            var t := Merge(b.time, p.timestamp.value) + 1;
            var tx := Transacao(p.carro.value, p.carregador, p.energiaConsumidaKwh.value,
                                p.energiaConsumidaKwh.value * PrecoPorKwh, t);
            && r.time == t && t >= p.timestamp.value + 2 && t >= b.time + 2
            && r.effects == b.effects + [Publicada(tx), Salvamento(tx, saved)]
            && Transacoes(r.effects) == Transacoes(b.effects) + [tx])
      && (!Billed(payload) ==> r.effects == b.effects)
      && (payload.Some? && payload.value.timestamp.Some? && !Billable(payload.value) ==>
            r == b.(time := Merge(b.time, payload.value.timestamp.value)))
      && r.time >= b.time
      && (payload.None? || payload.value.timestamp.None? ==> r == b)
  {
    if Billed(payload) {
      var p := payload.value;
      var t := Merge(b.time, p.timestamp.value) + 1;
      var tx := Transacao(p.carro.value, p.carregador, p.energiaConsumidaKwh.value,
                          p.energiaConsumidaKwh.value * PrecoPorKwh, t);
      TransacoesOfPublishAndSave(b.effects, tx, saved);
    }
  }

  /** A billed event's transaction is stamped `max(time, T) + 2`: exactly T + 2 unless the billing clock is ahead of T. */
  lemma TransactionStamp(b: BillingState, payload: Option<Payload>, saved: bool)
    requires Billed(payload)
    ensures var T := payload.value.timestamp.value;
      var txs := Transacoes(Handle(b, payload, saved).effects);
      && |txs| == |Transacoes(b.effects)| + 1
      && txs[|txs| - 1].timestampTransacao == (if b.time >= T then b.time else T) + 2
      && (b.time <= T ==> txs[|txs| - 1].timestampTransacao == T + 2)
  {
    HandleBillsOnce(b, payload, saved);
  }

  /** A delivery: the (possibly undecodable) payload and whether the storage call would succeed. */
  datatype Delivery = Delivery(payload: Option<Payload>, saved: bool)

  function HandleAll(b: BillingState, ds: seq<Delivery>): (r: BillingState)
    ensures b.effects <= r.effects
    decreases |ds|
  {
    if ds == [] then b
    else
      HandleAll(Handle(b, ds[0].payload, ds[0].saved), ds[1..])
  }

  function CountBilled(ds: seq<Delivery>): nat
    decreases |ds|
  {
    if ds == [] then 0 else (if Billed(ds[0].payload) then 1 else 0) + CountBilled(ds[1..])
  }

  /**
   * No session tracking: every billed message yields one more transaction,
   * whatever came before, so a redelivered `fim_carga` is billed again.
   */
  lemma {:induction false} HandleAllBillsEveryDelivery(b: BillingState, ds: seq<Delivery>)
    ensures |Transacoes(HandleAll(b, ds).effects)| == |Transacoes(b.effects)| + CountBilled(ds)
    decreases |ds|
  {
    if ds != [] {
      HandleBillsOnce(b, ds[0].payload, ds[0].saved);
      HandleAllBillsEveryDelivery(Handle(b, ds[0].payload, ds[0].saved), ds[1..]);
    }
  }

  /** A duplicated `fim_carga` is billed twice, with the same car, charger, energy and cost. */
  lemma DuplicateBilledTwice(b: BillingState, p: Payload, saved: bool)
    requires Billed(Some(p))
    ensures var txs := Transacoes(Handle(Handle(b, Some(p), saved), Some(p), saved).effects);
      && |txs| == |Transacoes(b.effects)| + 2
      && txs[|txs| - 2].carro == txs[|txs| - 1].carro == p.carro.value
      && txs[|txs| - 2].carregador == txs[|txs| - 1].carregador == p.carregador
      && txs[|txs| - 2].energiaTotalKwh == txs[|txs| - 1].energiaTotalKwh == p.energiaConsumidaKwh.value
      && txs[|txs| - 2].custoTotalBrl == txs[|txs| - 1].custoTotalBrl
      && txs[|txs| - 2].timestampTransacao < txs[|txs| - 1].timestampTransacao
  {
    var b1 := Handle(b, Some(p), saved);
    HandleBillsOnce(b, Some(p), saved);
    HandleBillsOnce(b1, Some(p), saved);
  }

  /** Transaction timestamps strictly increase and never exceed the clock. */
  ghost predicate StampsOrdered(b: BillingState)
  {
    var txs := Transacoes(b.effects);
    && (forall i :: 0 <= i < |txs| ==> txs[i].timestampTransacao <= b.time)
    && (forall i, j :: 0 <= i < j < |txs| ==> txs[i].timestampTransacao < txs[j].timestampTransacao)
  }

  lemma HandleKeepsStampsOrdered(b: BillingState, payload: Option<Payload>, saved: bool)
    requires StampsOrdered(b)
    ensures StampsOrdered(Handle(b, payload, saved))
  {
    HandleBillsOnce(b, payload, saved);
    var r := Handle(b, payload, saved);
    var olds := Transacoes(b.effects);
    var txs := Transacoes(r.effects);
    if Billed(payload) {
      var tx := txs[|txs| - 1];
      assert txs == olds + [tx] && tx.timestampTransacao == r.time > b.time;
      forall i | 0 <= i < |txs|
        ensures txs[i].timestampTransacao <= r.time
      {
        if i < |olds| { assert txs[i] == olds[i]; }
      }
      forall i, j | 0 <= i < j < |txs|
        ensures txs[i].timestampTransacao < txs[j].timestampTransacao
      {
        assert txs[i] == olds[i];
        if j < |olds| { assert txs[j] == olds[j]; }
      }
    } else {
      assert txs == olds;
    }
  }

  /** Over any sequence of deliveries the published transactions are in strictly increasing timestamp order. */
  lemma {:induction false} HandleAllKeepsStampsOrdered(b: BillingState, ds: seq<Delivery>)
    requires StampsOrdered(b)
    ensures StampsOrdered(HandleAll(b, ds))
    decreases |ds|
  {
    if ds != [] {
      HandleKeepsStampsOrdered(b, ds[0].payload, ds[0].saved);
      HandleAllKeepsStampsOrdered(Handle(b, ds[0].payload, ds[0].saved), ds[1..]);
    }
  }

  /** The bound on connection attempts in `run`. */
  const MaxRetries: nat := 5

  /** How one `client.connect` call ends: success, one of the three caught errors, or any other exception. */
  datatype ConnectResult = Connected | Refused | OtherFailure

  /** How `run` ends. */
  datatype RunOutcome =
    | MissingDatabaseUrl
    | MissingBrokerHost
    | Serving(failures: nat)
    | Crashed(failures: nat)
    | GaveUp

  /** `MQTT_BROKER_HOST` defaults to "localhost" when the variable is unset. */
  function BrokerHost(env: Option<string>): string
  {
    match env
    case None => "localhost"
    case Some(h) => h
  }

  /**
   * `BillingService.run`: refuse to start without `DATABASE_URL` or with an
   * empty broker host, then try to connect at most `MaxRetries` times,
   * retrying only on the caught connection errors. `connect(k)` is how the
   * k-th attempt ends.
   */
  method ConnectWithRetries(databaseUrl: Option<string>, brokerHostEnv: Option<string>, connect: nat -> ConnectResult)
    returns (outcome: RunOutcome)
    ensures outcome == MissingDatabaseUrl <==> !Truthy(databaseUrl)
    ensures outcome == MissingBrokerHost <==> Truthy(databaseUrl) && BrokerHost(brokerHostEnv) == ""
    ensures outcome.Serving? ==> outcome.failures < MaxRetries && connect(outcome.failures) == Connected
    ensures outcome.Crashed? ==> outcome.failures < MaxRetries && connect(outcome.failures) == OtherFailure
    ensures outcome.Serving? || outcome.Crashed? ==> forall k :: 0 <= k < outcome.failures ==> connect(k) == Refused
    ensures outcome == GaveUp <==>
      Truthy(databaseUrl) && BrokerHost(brokerHostEnv) != "" && forall k :: 0 <= k < MaxRetries ==> connect(k) == Refused
  {
    if !Truthy(databaseUrl) {
      return MissingDatabaseUrl;
    }
    if BrokerHost(brokerHostEnv) == "" {
      return MissingBrokerHost;
    }
    var attempts: nat := 0;
    while attempts < MaxRetries
      invariant attempts <= MaxRetries
      invariant forall k :: 0 <= k < attempts ==> connect(k) == Refused
    {
      var result := connect(attempts);
      if result == Connected {
        return Serving(attempts);
      }
      if result == OtherFailure {
        return Crashed(attempts);
      }
      attempts := attempts + 1;
    }
    return GaveUp;
  }

  /** The billing service object: its clock and what it has published and stored. */
  class BillingService {
    const clock: LamportClock
    var effects: seq<Effect>

    function Model(): BillingState
      reads this, clock
    {
      BillingState(clock.time, effects)
    }

    constructor ()
      ensures Model() == BillingState(0, []) && fresh(clock)
    {
      clock := new LamportClock();
      effects := [];
    }

    /** `processar_evento`; `saved` is whether `salvar_transacao_db` would succeed. */
    method ProcessarEvento(evento: Payload, saved: bool)
      modifies this, clock
      ensures Model() == Process(old(Model()), evento, saved)
      ensures old(StampsOrdered(Model())) ==> StampsOrdered(Model())
    {
      if evento.acao == Some(FimCarga) {
        var carro := evento.carro;
        var energia := evento.energiaConsumidaKwh;
        if Truthy(carro) && energia.Some? {
          var custo := energia.value * PrecoPorKwh;
          var t := clock.SendEvent();
          var tx := Transacao(carro.value, evento.carregador, energia.value, custo, t);
          effects := effects + [Publicada(tx)];
          effects := effects + [Salvamento(tx, saved)];
          ghost var b := old(Model());
          assert effects == b.effects + [Publicada(tx), Salvamento(tx, saved)];
          TransacoesOfPublishAndSave(b.effects, tx, saved);
        }
      }
    }

    /** `on_message`: merge then process, only when the payload decodes and has a timestamp. */
    method OnMessage(payload: Option<Payload>, saved: bool)
      modifies this, clock
      ensures Model() == Handle(old(Model()), payload, saved)
      ensures old(StampsOrdered(Model())) ==> StampsOrdered(Model())
    {
      ghost var before := Model();
      if payload.Some? && payload.value.timestamp.Some? {
        var _ := clock.ReceiveEvent(payload.value.timestamp.value);
        ProcessarEvento(payload.value, saved);
      }
      if StampsOrdered(before) {
        HandleKeepsStampsOrdered(before, payload, saved);
      }
    }
  }
}
