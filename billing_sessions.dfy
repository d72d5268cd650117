/**
 * The billing service of billing.py: it keeps the active sessions in the map
 * `sessoes_ativas`, keyed by the event's `carro` value (which may be None),
 * and bills a `fim_carga` only when a session for that car is active.
 */
module SessionBilling {
  import opened Wrappers
  import opened Messages
  import opened Lamport

  const Carregando: string := "carregando"

  /** An active session as stored by `inicio_carga`. */
  datatype Sessao = Sessao(carregador: Option<string>, timestampInicio: Option<int>, status: string)

  /** A transaction as published on the transactions topic. */
  datatype Transacao = Transacao(carro: Option<string>, carregador: Option<string>, custoTotal: real, timestamp: int)

  datatype BillingState = BillingState(time: int, sessoes: map<Option<string>, Sessao>, outbox: seq<Transacao>)

  const Initial: BillingState := BillingState(0, map[], [])

  /**
   * `processar_evento`: `inicio_carga` inserts or overwrites the car's session;
   * `fim_carga` with an active session publishes a transaction stamped by
   * `send_event` and removes the session. `custo` is the value drawn by
   * `random.uniform`.
   */
  function Process(b: BillingState, evento: Payload, custo: real): (r: BillingState)
    ensures b.outbox <= r.outbox && |r.outbox| <= |b.outbox| + 1 && b.time <= r.time
    ensures |r.outbox| == |b.outbox| + 1 <==> evento.acao == Some(FimCarga) && evento.carro in b.sessoes
    ensures evento.acao != Some(InicioCarga) && evento.acao != Some(FimCarga) ==> r == b
  {
    var carro := evento.carro;
    if evento.acao == Some(InicioCarga) then
      b.(sessoes := b.sessoes[carro := Sessao(evento.carregador, evento.timestamp, Carregando)])
    else if evento.acao == Some(FimCarga) && carro in b.sessoes then
      var t := b.time + 1;
      BillingState(t, b.sessoes - {carro}, b.outbox + [Transacao(carro, b.sessoes[carro].carregador, custo, t)])
    else b
  }

  /**
   * `on_message`: an undecodable payload, or one without `timestamp` (the
   * `KeyError` path), changes nothing; otherwise merge the clock, then process.
   */
  function Handle(b: BillingState, payload: Option<Payload>, custo: real): (r: BillingState)
    ensures b.outbox <= r.outbox && |r.outbox| <= |b.outbox| + 1 && b.time <= r.time
    ensures payload.None? || payload.value.timestamp.None? ==> r == b
  {
    match payload
    case None => b
    case Some(p) =>
      if p.timestamp.None? then b
      else Process(b.(time := Merge(b.time, p.timestamp.value)), p, custo)
  }

  /**
   * One message, case by case: what it does to the session map, the published
   * transactions and the clock.
   */
  lemma HandleCases(b: BillingState, payload: Option<Payload>, custo: real)
    ensures var r := Handle(b, payload, custo);
      && (payload.None? || payload.value.timestamp.None? ==> r == b)
      && (payload.Some? && payload.value.timestamp.Some? ==>
            var p := payload.value;
            var merged := Merge(b.time, p.timestamp.value);
            && (p.acao == Some(InicioCarga) ==>
                  && r.sessoes == b.sessoes[p.carro := Sessao(p.carregador, p.timestamp, Carregando)]
                  && r.outbox == b.outbox && r.time == merged)
            && (p.acao == Some(FimCarga) && p.carro in b.sessoes ==>
                  && r.time == merged + 1 && r.time > p.timestamp.value
                  && r.outbox == b.outbox + [Transacao(p.carro, b.sessoes[p.carro].carregador, custo, r.time)]
                  && p.carro !in r.sessoes && r.sessoes == b.sessoes - {p.carro})
            && (p.acao == Some(FimCarga) && p.carro !in b.sessoes ==>
                  r.sessoes == b.sessoes && r.outbox == b.outbox && r.time == merged)
            && (p.acao != Some(InicioCarga) && p.acao != Some(FimCarga) ==>
                  r.sessoes == b.sessoes && r.outbox == b.outbox && r.time == merged))
  {
  }

  /** A `fim_carga` that finds its session is billed at `max(time, T) + 2`: exactly T + 2 unless the billing clock is ahead of T. */
  lemma TransactionStamp(b: BillingState, p: Payload, custo: real)
    requires p.timestamp.Some? && p.acao == Some(FimCarga) && p.carro in b.sessoes
    ensures var T := p.timestamp.value;
      var r := Handle(b, Some(p), custo);
      && |r.outbox| == |b.outbox| + 1
      && r.outbox[|r.outbox| - 1].timestamp == (if b.time >= T then b.time else T) + 2
      && (b.time <= T ==> r.outbox[|r.outbox| - 1].timestamp == T + 2)
  {
    HandleCases(b, Some(p), custo);
  }

  /** A delivery: the (possibly undecodable) payload and the cost `random.uniform` would draw. */
  datatype Delivery = Delivery(payload: Option<Payload>, custo: real)

  function HandleAll(b: BillingState, ds: seq<Delivery>): BillingState
    decreases |ds|
  {
    if ds == [] then b else HandleAll(Handle(b, ds[0].payload, ds[0].custo), ds[1..])
  }

  /** Handling one more delivery after a sequence. */
  lemma {:induction false} HandleAllSnoc(b: BillingState, ds: seq<Delivery>, d: Delivery)
    ensures HandleAll(b, ds + [d]) == Handle(HandleAll(b, ds), d.payload, d.custo)
    decreases |ds|
  {
    if ds == [] {
      assert ds + [d] == [d];
      assert [d][1..] == [];
    } else {
      assert (ds + [d])[0] == ds[0];
      assert (ds + [d])[1..] == ds[1..] + [d];
      HandleAllSnoc(Handle(b, ds[0].payload, ds[0].custo), ds[1..], d);
    }
  }

  /** A start followed by two ends for the same car bills once: the second end is an orphan. */
  lemma OneStartTwoEndsBillsOnce(b: BillingState, start: Payload, end: Payload, c1: real, c2: real, c3: real)
    requires start.acao == Some(InicioCarga) && start.timestamp.Some?
    requires end.acao == Some(FimCarga) && end.timestamp.Some? && end.carro == start.carro
    ensures var r := HandleAll(b, [Delivery(Some(start), c1), Delivery(Some(end), c2), Delivery(Some(end), c3)]);
      && |r.outbox| == |b.outbox| + 1
      && r.outbox[|b.outbox|] == Transacao(start.carro, start.carregador, c2, r.outbox[|b.outbox|].timestamp)
      && start.carro !in r.sessoes
  {
    var ds := [Delivery(Some(start), c1), Delivery(Some(end), c2), Delivery(Some(end), c3)];
    var b1 := Handle(b, Some(start), c1);
    var b2 := Handle(b1, Some(end), c2);
    var b3 := Handle(b2, Some(end), c3);
    HandleCases(b, Some(start), c1);
    HandleCases(b1, Some(end), c2);
    HandleCases(b2, Some(end), c3);
    assert ds[1..][1..][1..] == [];
    assert HandleAll(b, ds) == HandleAll(b1, ds[1..]) == HandleAll(b2, ds[1..][1..]) == HandleAll(b3, []);
  }

  /** Transactions for car `k` among `txs`. */
  function CountFor(txs: seq<Transacao>, k: Option<string>): nat
    decreases |txs|
  {
    if txs == [] then 0
    else CountFor(txs[..|txs| - 1], k) + (if txs[|txs| - 1].carro == k then 1 else 0)
  }

  /** Deliveries in `ds` that open a session for car `k`. */
  function StartsFor(ds: seq<Delivery>, k: Option<string>): nat
    decreases |ds|
  {
    if ds == [] then 0
    else
      var p := ds[0].payload;
      (if p.Some? && p.value.timestamp.Some? && p.value.acao == Some(InicioCarga) && p.value.carro == k then 1 else 0)
      + StartsFor(ds[1..], k)
  }

  /** Billed transactions and open sessions for car `k`: each is paid for by a distinct `inicio_carga`. */
  function Claims(b: BillingState, k: Option<string>): nat
  {
    CountFor(b.outbox, k) + (if k in b.sessoes then 1 else 0)
  }

  lemma HandleClaims(b: BillingState, payload: Option<Payload>, custo: real, k: Option<string>)
    ensures var starts := payload.Some? && payload.value.timestamp.Some? && payload.value.acao == Some(InicioCarga) && payload.value.carro == k;
      Claims(Handle(b, payload, custo), k) <= Claims(b, k) + (if starts then 1 else 0)
  {
    HandleCases(b, payload, custo);
    var r := Handle(b, payload, custo);
    if |r.outbox| != |b.outbox| {
      assert r.outbox[..|r.outbox| - 1] == b.outbox;
    }
  }

  /**
   * No double billing over any sequence of deliveries: the transactions billed
   * for a car, plus its open session, never exceed what there was before plus
   * the `inicio_carga` events for it.
   */
  lemma {:induction false} HandleAllClaims(b: BillingState, ds: seq<Delivery>, k: Option<string>)
    ensures Claims(HandleAll(b, ds), k) <= Claims(b, k) + StartsFor(ds, k)
    decreases |ds|
  {
    if ds != [] {
      HandleClaims(b, ds[0].payload, ds[0].custo, k);
      HandleAllClaims(Handle(b, ds[0].payload, ds[0].custo), ds[1..], k);
    }
  }

  /** From a fresh service, a car is billed at most once per `inicio_carga` delivered for it. */
  lemma BilledAtMostOncePerStart(ds: seq<Delivery>, k: Option<string>)
    ensures CountFor(HandleAll(Initial, ds).outbox, k) <= StartsFor(ds, k)
  {
    assert Claims(Initial, k) == 0;
    HandleAllClaims(Initial, ds, k);
  }

  /** The billing service object of billing.py. */
  class BillingService {
    const clock: LamportClock
    var sessoesAtivas: map<Option<string>, Sessao>
    var outbox: seq<Transacao>

    function Model(): BillingState
      reads this, clock
    {
      BillingState(clock.time, sessoesAtivas, outbox)
    }

    constructor ()
      ensures Model() == Initial && fresh(clock)
    {
      clock := new LamportClock();
      sessoesAtivas := map[];
      outbox := [];
    }

    /** `processar_evento`; `custo` stands for `random.uniform(5, 50)`. */
    method ProcessarEvento(evento: Payload, custo: real)
      modifies this, clock
      ensures Model() == Process(old(Model()), evento, custo)
    {
      var carro := evento.carro;
      var acao := evento.acao;
      if acao == Some(InicioCarga) {
        sessoesAtivas := sessoesAtivas[carro := Sessao(evento.carregador, evento.timestamp, Carregando)];
      } else if acao == Some(FimCarga) {
        if carro in sessoesAtivas {
          var t := clock.SendEvent();
          var transacao := Transacao(carro, sessoesAtivas[carro].carregador, custo, t);
          outbox := outbox + [transacao];
          sessoesAtivas := sessoesAtivas - {carro};
        }
      }
    }

    /** `on_message`: a payload without `timestamp` stops at the `KeyError` before the merge. */
    method OnMessage(payload: Option<Payload>, custo: real)
      modifies this, clock
      ensures Model() == Handle(old(Model()), payload, custo)
    {
      if payload.Some? && payload.value.timestamp.Some? {
        var _ := clock.ReceiveEvent(payload.value.timestamp.value);
        ProcessarEvento(payload.value, custo);
      }
    }
  }
}
