/**
 * Properties that connect the components: a station's events fed to the
 * session-tracking billing service, a concrete charging session billed by
 * both billing drafts, and the last-will record reaching the gateway.
 */
module EndToEnd {
  import opened Wrappers
  import opened Messages
  import opened Lamport
  import opened ChargingStation
  import SessionBilling
  import FixedRateBilling
  import Gateway

  /** The station's events as deliveries to the session-tracking billing service, each with cost `custo`. */
  function AsDeliveries(ev: seq<Msg>, custo: real): seq<SessionBilling.Delivery>
  {
    seq(|ev|, i requires 0 <= i < |ev| => SessionBilling.Delivery(Some(ToPayload(ev[i])), custo))
  }

  /** Billing state after the first `m` sessions of the log: `m` transactions, each naming its session's car and this station, and no open session. */
  ghost predicate Closed(b: SessionBilling.BillingState, ev: seq<Msg>, id: string, m: nat)
    requires 2 * m <= |ev| && forall i :: 0 <= i < |ev| ==> ev[i].Evento?
  {
    && |b.outbox| == m
    && (forall j :: 0 <= j < m ==> b.outbox[j].carro == ev[2 * j].carro && b.outbox[j].carregador == Some(id))
    && b.sessoes == map[]
  }

  /** As `Closed`, with the `inicio_carga` at position `2 * m` open as the only session. */
  ghost predicate Open(b: SessionBilling.BillingState, ev: seq<Msg>, id: string, m: nat)
    requires 2 * m < |ev| && forall i :: 0 <= i < |ev| ==> ev[i].Evento?
  {
    && |b.outbox| == m
    && (forall j :: 0 <= j < m ==> b.outbox[j].carro == ev[2 * j].carro && b.outbox[j].carregador == Some(id))
    && b.sessoes == map[ev[2 * m].carro := SessionBilling.Sessao(Some(id), Some(ev[2 * m].timestamp), SessionBilling.Carregando)]
  }

  /** An `inicio_carga` opens the session of its car. */
  lemma BillStart(b: SessionBilling.BillingState, ev: seq<Msg>, id: string, time: int, custo: real, m: nat)
    requires EventsStamped(ev, id, time) && Alternates(ev) && 2 * m < |ev|
    requires Closed(b, ev, id, m)
    ensures Open(SessionBilling.Handle(b, Some(ToPayload(ev[2 * m])), custo), ev, id, m)
  {
    SessionAt(ev, m);
    SessionBilling.HandleCases(b, Some(ToPayload(ev[2 * m])), custo);
  }

  /** The `fim_carga` after it closes the open session and bills it. */
  lemma BillEnd(b: SessionBilling.BillingState, ev: seq<Msg>, id: string, time: int, custo: real, m: nat)
    requires EventsStamped(ev, id, time) && Alternates(ev) && EndsMatchStarts(ev) && 2 * m + 1 < |ev|
    requires Open(b, ev, id, m)
    ensures Closed(SessionBilling.Handle(b, Some(ToPayload(ev[2 * m + 1])), custo), ev, id, m + 1)
  {
    SessionAt(ev, m);
    var e := ev[2 * m + 1];
    var p := ToPayload(e);
    assert e.acao == FimCarga && e.carro == ev[2 * m].carro;
    SessionBilling.HandleCases(b, Some(p), custo);
    var r := SessionBilling.Handle(b, Some(p), custo);
    assert |r.outbox| == m + 1;
    forall j | 0 <= j < m + 1
      ensures r.outbox[j].carro == ev[2 * j].carro && r.outbox[j].carregador == Some(id)
    {
      if j < m {
        assert r.outbox[j] == b.outbox[j];
      }
    }
  }

  /** Delivering one more event of the log is one more `Handle`. */
  lemma DeliverNext(ev: seq<Msg>, custo: real, k: nat)
    requires k < |ev|
    ensures SessionBilling.HandleAll(SessionBilling.Initial, AsDeliveries(ev, custo)[..k + 1])
         == SessionBilling.Handle(SessionBilling.HandleAll(SessionBilling.Initial, AsDeliveries(ev, custo)[..k]),
                                  Some(ToPayload(ev[k])), custo)
  {
    var ds := AsDeliveries(ev, custo);
    var d := ds[k];
    assert d == SessionBilling.Delivery(Some(ToPayload(ev[k])), custo);
    assert ds[..k + 1] == ds[..k] + [d];
    SessionBilling.HandleAllSnoc(SessionBilling.Initial, ds[..k], d);
  }

  /** The first `m` sessions of the log, delivered in order, are billed once each. */
  lemma {:induction false} BillSessions(ev: seq<Msg>, id: string, time: int, custo: real, m: nat)
    requires EventsStamped(ev, id, time) && Alternates(ev) && EndsMatchStarts(ev) && 2 * m <= |ev|
    ensures Closed(SessionBilling.HandleAll(SessionBilling.Initial, AsDeliveries(ev, custo)[..2 * m]), ev, id, m)
    decreases m
  {
    if m == 0 {
      assert AsDeliveries(ev, custo)[..0] == [];
    } else {
      BillSessions(ev, id, time, custo, m - 1);
      BillPair(ev, id, time, custo, m - 1);
    }
  }

  /** One more start-end pair of deliveries closes one more session. */
  lemma BillPair(ev: seq<Msg>, id: string, time: int, custo: real, m: nat)
    requires EventsStamped(ev, id, time) && Alternates(ev) && EndsMatchStarts(ev) && 2 * m + 2 <= |ev|
    requires Closed(SessionBilling.HandleAll(SessionBilling.Initial, AsDeliveries(ev, custo)[..2 * m]), ev, id, m)
    ensures Closed(SessionBilling.HandleAll(SessionBilling.Initial, AsDeliveries(ev, custo)[..2 * m + 2]), ev, id, m + 1)
  {
    var k := 2 * m;
    var b := SessionBilling.HandleAll(SessionBilling.Initial, AsDeliveries(ev, custo)[..k]);
    DeliverNext(ev, custo, k);
    BillStart(b, ev, id, time, custo, m);
    var b' := SessionBilling.HandleAll(SessionBilling.Initial, AsDeliveries(ev, custo)[..k + 1]);
    DeliverNext(ev, custo, k + 1);
    BillEnd(b', ev, id, time, custo, m);
  }

  /** A well-formed log delivered in order: one transaction per completed session, and the trailing `inicio_carga`, if any, open. */
  lemma BillLog(ev: seq<Msg>, id: string, time: int, custo: real)
    requires EventsStamped(ev, id, time) && Alternates(ev) && EndsMatchStarts(ev)
    ensures var b := SessionBilling.HandleAll(SessionBilling.Initial, AsDeliveries(ev, custo));
      && |b.outbox| == |ev| / 2
      && (forall j :: 0 <= j < |b.outbox| ==> b.outbox[j].carro == ev[2 * j].carro && b.outbox[j].carregador == Some(id))
      && (!Odd(|ev|) ==> b.sessoes == map[])
      && (Odd(|ev|) ==> b.sessoes.Keys == {ev[|ev| - 1].carro})
  {
    var m := |ev| / 2;
    OddIsMod(|ev|);
    if |ev| == 2 * m {
      BillWhole(ev, id, time, custo, m);
    } else {
      BillOpenTail(ev, id, time, custo, m);
    }
  }

  lemma BillWhole(ev: seq<Msg>, id: string, time: int, custo: real, m: nat)
    requires EventsStamped(ev, id, time) && Alternates(ev) && EndsMatchStarts(ev) && |ev| == 2 * m
    ensures Closed(SessionBilling.HandleAll(SessionBilling.Initial, AsDeliveries(ev, custo)), ev, id, m)
  {
    BillSessions(ev, id, time, custo, m);
    assert AsDeliveries(ev, custo)[..|ev|] == AsDeliveries(ev, custo);
  }

  lemma BillOpenTail(ev: seq<Msg>, id: string, time: int, custo: real, m: nat)
    requires EventsStamped(ev, id, time) && Alternates(ev) && EndsMatchStarts(ev) && |ev| == 2 * m + 1
    ensures Open(SessionBilling.HandleAll(SessionBilling.Initial, AsDeliveries(ev, custo)), ev, id, m)
  {
    var ds := AsDeliveries(ev, custo);
    BillSessions(ev, id, time, custo, m);
    DeliverNext(ev, custo, 2 * m);
    BillStart(SessionBilling.HandleAll(SessionBilling.Initial, ds[..2 * m]), ev, id, time, custo, m);
    assert ds[..2 * m + 1] == ds;
  }

  /**
   * In-order delivery of one station's events to a fresh session-tracking
   * billing service bills every completed session exactly once, in order,
   * naming the station and the session's car; when the station is free no
   * session is open, and while it charges exactly its car's session is.
   */
  lemma InOrderDeliveryBillsEachSessionOnce(ops: seq<Op>, id: string, custo: real)
    requires forall i :: 0 <= i < |ops| ==> ValidOp(ops[i])
    ensures var s := Run(Initial(id), ops);
      var ev := Eventos(s.outbox);
      var b := SessionBilling.HandleAll(SessionBilling.Initial, AsDeliveries(ev, custo));
      && |b.outbox| == |ev| / 2
      && (forall i :: 0 <= i < |ev| ==> ev[i].Evento?)
      && (forall j :: 0 <= j < |b.outbox| ==> b.outbox[j].carro == ev[2 * j].carro && b.outbox[j].carregador == Some(id))
      && (!Charging(s) ==> b.sessoes == map[])
      && (Charging(s) ==> b.sessoes.Keys == {s.carro})
  {
    var s := Run(Initial(id), ops);
    InitialConsistent(id);
    RunConsistent(Initial(id), ops);
    var ev := Eventos(s.outbox);
    EventLogIndexed(ev, s.id, s.time);
    BillLog(ev, s.id, s.time, custo);
  }

  /** A charging session at station "A" for car "C1": connect, two charging ticks of 1.7 kWh, finish. */
  function SessionAtA(): StationState
  {
    Finish(Charge(Charge(Connect(Initial("A"), "C1"), 1.7), 1.7))
  }

  /**
   * The session publishes `inicio_carga` at 1 and `fim_carga` at 2 with 3.4
   * kWh. The session-tracking service opens the session, then bills it with
   * the charger taken from the session and timestamp 4 (merge 2 into 2 gives
   * 3, then `send_event` gives 4); the fixed-rate service bills 3.4 kWh at
   * 2.55 with timestamp 4 as well.
   */
  lemma SessionAtABilledByBothServices(custo: real, saved: bool)
    ensures var s := SessionAtA();
      var start := ToPayload(s.outbox[0]);
      var end := ToPayload(s.outbox[4]);
      var b1 := SessionBilling.Handle(SessionBilling.Initial, Some(start), custo);
      var b2 := SessionBilling.Handle(b1, Some(end), custo);
      var f := FixedRateBilling.Handle(FixedRateBilling.Handle(FixedRateBilling.BillingState(0, []), Some(start), saved), Some(end), saved);
      && s.outbox[0] == Evento("A", Some("C1"), InicioCarga, 1, None)
      && s.outbox[4] == Evento("A", Some("C1"), FimCarga, 2, Some(3.4))
      && b1.sessoes == map[Some("C1") := SessionBilling.Sessao(Some("A"), Some(1), SessionBilling.Carregando)]
      && b2.sessoes == map[]
      && b2.outbox == [SessionBilling.Transacao(Some("C1"), Some("A"), custo, 4)]
      && FixedRateBilling.Transacoes(f.effects) == [FixedRateBilling.Transacao("C1", Some("A"), 3.4, 2.55, 4)]
  {
    var s := SessionAtA();
    var start := ToPayload(s.outbox[0]);
    var end := ToPayload(s.outbox[4]);
    var b1 := SessionBilling.Handle(SessionBilling.Initial, Some(start), custo);
    assert b1.sessoes.Keys == {Some("C1")};
    var f1 := FixedRateBilling.Handle(FixedRateBilling.BillingState(0, []), Some(start), saved);
    FixedRateBilling.HandleBillsOnce(FixedRateBilling.BillingState(0, []), Some(start), saved);
    FixedRateBilling.HandleBillsOnce(f1, Some(end), saved);
    assert FixedRateBilling.Transacoes([]) == [];
  }

  /**
   * A station that disconnects uncleanly: the broker publishes its last will
   * on its status topic and the gateway's record for that charger reads
   * `offline` until another status arrives.
   */
  lemma LastWillMarksChargerOffline(st: Gateway.Snapshot, id: string)
    requires id != ""
    ensures var r := Gateway.Handle(st, StatusTopic(id), Some(ToPayload(LastWill(id))));
      && id in r.carregadores && r.carregadores[id].status == Some(Offline)
      && r.eventos == st.eventos
  {
    TopicsContainTheirKind(id);
  }
}
