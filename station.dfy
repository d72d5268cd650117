/**
 * One charging station (backend/carregador.py): a Free/Charging state machine
 * that owns a Lamport clock and publishes events and status records. A
 * publish is modelled as appending to the station's outbox, so the order of
 * publishes and their timestamps can be stated.
 */
module ChargingStation {
  import opened Wrappers
  import opened Messages
  import opened Lamport

  /** What a station publishes: an event on its events topic or a status record on its status topic. */
  datatype Msg =
    | Evento(carregador: string, carro: Option<string>, acao: string, timestamp: int, energiaFinal: Option<real>)
    | Status(carregador: string, status: string, carroConectado: Option<string>, energiaKwh: real)

  /** The topic a message is published on. */
  function Topic(m: Msg): string
  {
    match m
    case Evento(id, _, _, _, _) => EventosTopic(id)
    case Status(id, _, _, _) => StatusTopic(id)
  }

  /** The flat payload a subscriber decodes from a published message. */
  function ToPayload(m: Msg): Payload
  {
    match m
    case Evento(id, carro, acao, t, e) => Payload(Some(id), carro, Some(acao), Some(t), e, None, None)
    case Status(id, st, carro, e) => Payload(Some(id), None, None, None, Some(e), Some(st), carro)
  }

  /** The retained "offline" record the station registers as its last will; the broker publishes it. */
  function LastWill(id: string): Msg
  {
    Status(id, Offline, None, 0.0)
  }

  /** The station's observable state: its id, its clock, the connected car, the energy and what it has published. */
  datatype StationState = StationState(id: string, time: int, carro: Option<string>, energia: real, outbox: seq<Msg>)

  /** A car is connected exactly when `carro_conectado` is truthy. */
  predicate Charging(s: StationState)
  {
    Truthy(s.carro)
  }

  function Initial(id: string): StationState
  {
    StationState(id, 0, None, 0.0, [])
  }

  /** The status record `publicar_status` builds from the current state. */
  function StatusOf(s: StationState): Msg
  {
    Status(s.id, if Charging(s) then Ocupado else Livre, s.carro, s.energia)
  }

  /** `publicar_evento`: take a timestamp with `send_event` and publish the event. */
  function PublishEvento(s: StationState, acao: string, carroId: Option<string>): (r: StationState)
    ensures r.id == s.id && r.carro == s.carro && r.energia == s.energia && r.time == s.time + 1
    ensures |r.outbox| == |s.outbox| + 1 && s.outbox <= r.outbox
    ensures var e := r.outbox[|s.outbox|];
      e.Evento? && e.carregador == s.id && e.acao == acao && e.timestamp == r.time && e.energiaFinal.None?
  {
    var t := s.time + 1;
    var carro := if Truthy(carroId) then carroId else s.carro;
    s.(time := t, outbox := s.outbox + [Evento(s.id, carro, acao, t, None)])
  }

  /** `publicar_status`: publish the current status record; the clock is not touched. */
  function PublishStatus(s: StationState): (r: StationState)
    ensures r.id == s.id && r.carro == s.carro && r.energia == s.energia && r.time == s.time
    ensures |r.outbox| == |s.outbox| + 1 && s.outbox <= r.outbox
    ensures var m := r.outbox[|s.outbox|];
      m.Status? && m.carregador == s.id && m.carroConectado == s.carro && (m.status == Ocupado <==> Charging(s))
  {
    s.(outbox := s.outbox + [StatusOf(s)])
  }

  /** `conectar_carro`: Free to Charging. */
  function Connect(s: StationState, c: string): (r: StationState)
    ensures Charging(s) ==> r == s
    ensures !Charging(s) ==>
      && r.id == s.id && r.carro == Some(c) && r.energia == 0.0 && r.time == s.time + 1
      && |r.outbox| == |s.outbox| + 2 && s.outbox <= r.outbox
      && (Charging(r) <==> c != "")
  {
    if Charging(s) then s
    else PublishStatus(PublishEvento(s.(carro := Some(c), energia := 0.0), InicioCarga, Some(c)))
  }

  /** `finalizar_carregamento`: Charging to Free, announcing the final energy. */
  function Finish(s: StationState): (r: StationState)
    ensures !Charging(r)
    ensures !Charging(s) ==> r == s
    ensures Charging(s) ==>
      && r.id == s.id && r.energia == s.energia && r.time == s.time + 1
      && |r.outbox| == |s.outbox| + 2 && s.outbox <= r.outbox
  {
    if !Charging(s) then s
    else
      var t := s.time + 1;
      var ended := s.(time := t, outbox := s.outbox + [Evento(s.id, s.carro, FimCarga, t, Some(s.energia))]);
      PublishStatus(ended.(carro := None))
  }

  /** `simular_carregamento`: the Charging self-loop, adding `increment` kWh. */
  function Charge(s: StationState, increment: real): (r: StationState)
    ensures r.id == s.id && r.carro == s.carro && r.time == s.time
    ensures !Charging(s) ==> r == s
    ensures Charging(s) ==> r.energia == s.energia + increment && |r.outbox| == |s.outbox| + 1 && s.outbox <= r.outbox
  {
    if !Charging(s) then s
    else PublishStatus(s.(energia := s.energia + increment))
  }

  /** `on_message`: merge the clock with another station's event timestamp. */
  function Receive(s: StationState, topic: string, payload: Option<Payload>): (r: StationState)
    ensures r == s.(time := r.time) && s.time <= r.time
    ensures Contains(topic, s.id) ==> r == s
  {
    if Contains(topic, s.id) then s
    else match payload
      case None => s
      case Some(p) => if p.timestamp.Some? then s.(time := Merge(s.time, p.timestamp.value)) else s
  }

  /** The shutdown branch of `run`: finish an active session before disconnecting. */
  function Stop(s: StationState): (r: StationState)
    ensures !Charging(r)
    ensures !Charging(s) ==> r == s
  {
    if Charging(s) then Finish(s) else s
  }

  /** The things that can happen to a station: the simulation's three moves, a delivery, a shutdown. */
  datatype Op =
    | CarArrives(car: string)
    | ChargeTick(increment: real)
    | ChargeCompletes
    | Inbound(topic: string, payload: Option<Payload>)
    | Shutdown

  /** The ops `run` can produce: cars named `Carro_NNN` (never empty) and increments from `uniform(0.5, 2.0)`. */
  predicate ValidOp(op: Op)
  {
    match op
    case CarArrives(c) => c != ""
    case ChargeTick(inc) => 0.5 <= inc <= 2.0
    case _ => true
  }

  function Step(s: StationState, op: Op): (r: StationState)
    ensures r.id == s.id && s.time <= r.time && s.outbox <= r.outbox
  {
    match op
    case CarArrives(c) => Connect(s, c)
    case ChargeTick(inc) => Charge(s, inc)
    case ChargeCompletes => Finish(s)
    case Inbound(topic, p) => Receive(s, topic, p)
    case Shutdown => Stop(s)
  }

  /** A station's state after a sequence of ops: the clock never goes back and nothing published is withdrawn. */
  function Run(s: StationState, ops: seq<Op>): (r: StationState)
    ensures r.id == s.id && s.time <= r.time && s.outbox <= r.outbox
    decreases |ops|
  {
    if ops == [] then s else Run(Step(s, ops[0]), ops[1..])
  }

  /** The events among the published messages, in publish order. */
  function Eventos(out: seq<Msg>): (ev: seq<Msg>)
    decreases |out|
  {
    if out == [] then []
    else (if out[0].Evento? then [out[0]] else []) + Eventos(out[1..])
  }

  lemma {:induction false} EventosAppend(a: seq<Msg>, b: seq<Msg>)
    ensures Eventos(a + b) == Eventos(a) + Eventos(b)
    decreases |a|
  {
    if a == [] {
      assert a + b == b;
    } else {
      assert (a + b)[0] == a[0];
      assert (a + b)[1..] == a[1..] + b;
      EventosAppend(a[1..], b);
    }
  }

  /**
   * `n` is odd. Written by recursion rather than with `%`, so that the solver
   * unfolds it one step at a time; `OddIsMod` relates the two.
   */
  predicate Odd(n: nat)
  {
    n > 0 && !Odd(n - 1)
  }

  lemma {:induction false} OddIsMod(n: nat)
    ensures Odd(n) <==> n % 2 == 1
  {
    if n > 0 {
      OddIsMod(n - 1);
    }
  }

  /** Every status record reads `ocupado` exactly when it names a car, and names this station. */
  ghost predicate StatusesOk(out: seq<Msg>, id: string)
  {
    forall m :: m in out && m.Status? ==> m.carregador == id && (m.status == Ocupado <==> Truthy(m.carroConectado))
  }

  /**
   * The event log of station `id` while its clock reads `time`: either empty,
   * or a well-formed log stamped before its last event followed by that
   * event, which is an event of this station with a positive timestamp not
   * beyond `time`, an `inicio_carga` at an even position and a `fim_carga`
   * at an odd one; a `fim_carga` names the car of the event before it and
   * carries the final energy.
   */
  ghost predicate EventLogOk(ev: seq<Msg>, id: string, time: int)
    decreases |ev|
  {
    ev == [] ||
    (var n := |ev| - 1;
     && ev[n].Evento? && ev[n].carregador == id && 0 < ev[n].timestamp <= time
     && ev[n].acao == (if Odd(n) then FimCarga else InicioCarga)
     && (Odd(n) ==> ev[n - 1].Evento? && ev[n].carro == ev[n - 1].carro && ev[n].energiaFinal.Some?)
     && EventLogOk(ev[..n], id, ev[n].timestamp - 1))
  }

  /** Every entry is an event of station `id` with a positive timestamp not beyond `time`. */
  ghost predicate EventsStamped(ev: seq<Msg>, id: string, time: int)
  {
    forall i :: 0 <= i < |ev| ==> ev[i].Evento? && ev[i].carregador == id && 0 < ev[i].timestamp <= time
  }

  /** Timestamps strictly increase along the log. */
  ghost predicate StampsIncrease(ev: seq<Msg>)
  {
    forall i, j :: 0 <= i < j < |ev| && ev[i].Evento? && ev[j].Evento? ==> ev[i].timestamp < ev[j].timestamp
  }

  /** The log alternates `inicio_carga`, `fim_carga`, ... */
  ghost predicate Alternates(ev: seq<Msg>)
  {
    forall i :: 0 <= i < |ev| ==> ev[i].Evento? && ev[i].acao == (if Odd(i) then FimCarga else InicioCarga)
  }

  /** Each `fim_carga` names the car of the `inicio_carga` before it and carries the final energy. */
  ghost predicate EndsMatchStarts(ev: seq<Msg>)
  {
    forall i :: 0 < i < |ev| && Odd(i) ==> ev[i].Evento? && ev[i - 1].Evento? && ev[i].carro == ev[i - 1].carro && ev[i].energiaFinal.Some?
  }

  /**
   * Session `m` of an alternating log: position `2 * m` holds its
   * `inicio_carga` and position `2 * m + 1`, if present, its `fim_carga`,
   * which names the same car and carries the final energy.
   */
  lemma SessionAt(ev: seq<Msg>, m: nat)
    requires Alternates(ev) && 2 * m < |ev|
    ensures ev[2 * m].Evento? && ev[2 * m].acao == InicioCarga
    ensures 2 * m + 1 < |ev| ==> ev[2 * m + 1].Evento? && ev[2 * m + 1].acao == FimCarga
    ensures 2 * m + 1 < |ev| && EndsMatchStarts(ev) ==>
      ev[2 * m + 1].carro == ev[2 * m].carro && ev[2 * m + 1].energiaFinal.Some?
  {
    OddIsMod(2 * m);
    OddIsMod(2 * m + 1);
  }

  /**
   * What a well-formed log says position by position: events of this
   * station with strictly increasing positive timestamps not beyond the
   * clock, alternating `inicio_carga` and `fim_carga`, each `fim_carga`
   * naming the car of the `inicio_carga` before it.
   */
  lemma {:induction false} EventLogIndexed(ev: seq<Msg>, id: string, time: int)
    requires EventLogOk(ev, id, time)
    ensures EventsStamped(ev, id, time) && StampsIncrease(ev) && Alternates(ev) && EndsMatchStarts(ev)
    decreases |ev|
  {
    if ev != [] {
      var n := |ev| - 1;
      var front := ev[..n];
      EventLogIndexed(front, id, ev[n].timestamp - 1);
      forall i | 0 <= i < n
        ensures ev[i] == front[i]
      {
      }
      IndexedStamped(ev, id, time);
      IndexedAlternates(ev);
      IndexedIncrease(ev, id);
      IndexedEndsMatch(ev);
    }
  }

  lemma IndexedStamped(ev: seq<Msg>, id: string, time: int)
    requires ev != [] && ev[|ev| - 1].Evento? && ev[|ev| - 1].carregador == id && 0 < ev[|ev| - 1].timestamp <= time
    requires EventsStamped(ev[..|ev| - 1], id, ev[|ev| - 1].timestamp - 1)
    ensures EventsStamped(ev, id, time)
  {
    var n := |ev| - 1;
    var front := ev[..n];
    forall i | 0 <= i < |ev|
      ensures ev[i].Evento? && ev[i].carregador == id && 0 < ev[i].timestamp <= time
    {
      if i < n { assert ev[i] == front[i]; } else { assert i == n; }
    }
  }

  lemma IndexedAlternates(ev: seq<Msg>)
    requires ev != [] && ev[|ev| - 1].Evento?
    requires ev[|ev| - 1].acao == (if Odd(|ev| - 1) then FimCarga else InicioCarga)
    requires Alternates(ev[..|ev| - 1])
    ensures Alternates(ev)
  {
    var n := |ev| - 1;
    var front := ev[..n];
    forall i | 0 <= i < |ev|
      ensures ev[i].Evento? && ev[i].acao == (if Odd(i) then FimCarga else InicioCarga)
    {
      if i < n { assert ev[i] == front[i]; } else { assert i == n; }
    }
  }

  lemma IndexedIncrease(ev: seq<Msg>, id: string)
    requires ev != [] && ev[|ev| - 1].Evento?
    requires EventsStamped(ev[..|ev| - 1], id, ev[|ev| - 1].timestamp - 1) && StampsIncrease(ev[..|ev| - 1])
    ensures StampsIncrease(ev)
  {
    var n := |ev| - 1;
    var front := ev[..n];
    forall i, j | 0 <= i < j < |ev|
      ensures ev[i].timestamp < ev[j].timestamp
    {
      assert ev[i] == front[i];
      if j < n {
        assert ev[j] == front[j];
      } else {
        assert front[i].timestamp <= ev[n].timestamp - 1;
      }
    }
  }

  lemma IndexedEndsMatch(ev: seq<Msg>)
    requires ev != [] && ev[|ev| - 1].Evento?
    requires Odd(|ev| - 1) ==> ev[|ev| - 2].Evento? && ev[|ev| - 1].carro == ev[|ev| - 2].carro && ev[|ev| - 1].energiaFinal.Some?
    requires EndsMatchStarts(ev[..|ev| - 1])
    ensures EndsMatchStarts(ev)
  {
    var n := |ev| - 1;
    var front := ev[..n];
    forall i | 0 < i < |ev| && Odd(i)
      ensures ev[i].Evento? && ev[i - 1].Evento? && ev[i].carro == ev[i - 1].carro && ev[i].energiaFinal.Some?
    {
      if i < n {
        assert ev[i] == front[i] && ev[i - 1] == front[i - 1];
      }
    }
  }

  /**
   * The station's publishing protocol: well-formed statuses and event log,
   * and the station is charging exactly when the last event is an
   * `inicio_carga`, which then names its car.
   */
  ghost predicate Consistent(s: StationState)
  {
    var ev := Eventos(s.outbox);
    && s.time >= 0 && s.energia >= 0.0
    && StatusesOk(s.outbox, s.id)
    && EventLogOk(ev, s.id, s.time)
    && (Charging(s) <==> Odd(|ev|))
    && (Charging(s) ==> ev[|ev| - 1].carro == s.carro && ev[|ev| - 1].energiaFinal.None?)
  }

  lemma InitialConsistent(id: string)
    ensures Consistent(Initial(id))
  {
  }

  /** Appending the next event with the next timestamp keeps the event log well formed. */
  lemma AppendEventOk(ev: seq<Msg>, id: string, time: int, e: Msg)
    requires EventLogOk(ev, id, time) && time >= 0
    requires e.Evento? && e.carregador == id && e.timestamp == time + 1
    requires e.acao == (if Odd(|ev|) then FimCarga else InicioCarga)
    requires Odd(|ev|) ==> ev[|ev| - 1].Evento? && e.carro == ev[|ev| - 1].carro && e.energiaFinal.Some?
    ensures EventLogOk(ev + [e], id, time + 1)
  {
    assert (ev + [e])[..|ev|] == ev;
  }

  /** A running clock does not spoil the event log. */
  lemma EventLogLater(ev: seq<Msg>, id: string, time: int, later: int)
    requires EventLogOk(ev, id, time) && time <= later
    ensures EventLogOk(ev, id, later)
  {
  }

  /** The events of a publish of an event followed by a status. */
  lemma EventosOfPair(out: seq<Msg>, e: Msg, st: Msg)
    requires e.Evento? && st.Status?
    ensures Eventos(out + [e, st]) == Eventos(out) + [e]
  {
    EventosAppend(out, [e, st]);
    assert [e, st][1..] == [st] && [st][1..] == [];
    assert Eventos([st]) == [];
    assert Eventos([e, st]) == [e] + Eventos([st]);
  }

  /** Status records that each keep the rule can be appended. */
  lemma StatusesAppend(out: seq<Msg>, id: string, extra: seq<Msg>)
    requires StatusesOk(out, id) && StatusesOk(extra, id)
    ensures StatusesOk(out + extra, id)
  {
  }

  lemma ConnectConsistent(s: StationState, c: string)
    requires Consistent(s) && c != ""
    ensures Consistent(Connect(s, c))
  {
    if !Charging(s) {
      var r := Connect(s, c);
      var e := Evento(s.id, Some(c), InicioCarga, s.time + 1, None);
      var st := Status(s.id, Ocupado, Some(c), 0.0);
      assert r == StationState(s.id, s.time + 1, Some(c), 0.0, s.outbox + [e, st]);
      var ev := Eventos(s.outbox);
      EventosOfPair(s.outbox, e, st);
      AppendEventOk(ev, s.id, s.time, e);
      assert StatusesOk([e, st], s.id);
      StatusesAppend(s.outbox, s.id, [e, st]);
    }
  }

  /** The state `Finish` leaves behind a charging station. */
  lemma FinishShape(s: StationState)
    requires Charging(s)
    ensures Finish(s) == StationState(s.id, s.time + 1, None, s.energia,
      s.outbox + [Evento(s.id, s.carro, FimCarga, s.time + 1, Some(s.energia)), Status(s.id, Livre, None, s.energia)])
  {
    var e := Evento(s.id, s.carro, FimCarga, s.time + 1, Some(s.energia));
    assert (s.outbox + [e]) + [Status(s.id, Livre, None, s.energia)] == s.outbox + [e, Status(s.id, Livre, None, s.energia)];
  }

  lemma FinishConsistent(s: StationState)
    requires Consistent(s)
    ensures Consistent(Finish(s))
  {
    if Charging(s) {
      var r := Finish(s);
      var e := Evento(s.id, s.carro, FimCarga, s.time + 1, Some(s.energia));
      var st := Status(s.id, Livre, None, s.energia);
      FinishShape(s);
      var ev := Eventos(s.outbox);
      EventosOfPair(s.outbox, e, st);
      AppendEventOk(ev, s.id, s.time, e);
      assert StatusesOk([e, st], s.id);
      StatusesAppend(s.outbox, s.id, [e, st]);
    }
  }

  lemma ChargeConsistent(s: StationState, increment: real)
    requires Consistent(s) && 0.5 <= increment <= 2.0
    ensures Consistent(Charge(s, increment))
  {
    if Charging(s) {
      var r := Charge(s, increment);
      var st := Status(s.id, Ocupado, s.carro, s.energia + increment);
      assert r == StationState(s.id, s.time, s.carro, s.energia + increment, s.outbox + [st]);
      EventosAppend(s.outbox, [st]);
      assert Eventos([st]) == [];
      assert Eventos(r.outbox) == Eventos(s.outbox);
      assert Charging(r);
      StatusesAppend(s.outbox, s.id, [st]);
    }
  }

  lemma ReceiveConsistent(s: StationState, topic: string, payload: Option<Payload>)
    requires Consistent(s)
    ensures Consistent(Receive(s, topic, payload))
  {
    var r := Receive(s, topic, payload);
    EventLogLater(Eventos(s.outbox), s.id, s.time, r.time);
  }

  /** Every op `run` can produce keeps the protocol. */
  lemma StepConsistent(s: StationState, op: Op)
    requires Consistent(s) && ValidOp(op)
    ensures Consistent(Step(s, op))
  {
    match op
    case CarArrives(c) => ConnectConsistent(s, c);
    case ChargeTick(inc) => ChargeConsistent(s, inc);
    case ChargeCompletes => FinishConsistent(s);
    case Inbound(topic, p) => ReceiveConsistent(s, topic, p);
    case Shutdown => FinishConsistent(s);
  }

  /** From a fresh station, any run of valid ops keeps the protocol. */
  lemma {:induction false} RunConsistent(s: StationState, ops: seq<Op>)
    requires Consistent(s)
    requires forall i :: 0 <= i < |ops| ==> ValidOp(ops[i])
    ensures Consistent(Run(s, ops))
    decreases |ops|
  {
    if ops != [] {
      StepConsistent(s, ops[0]);
      RunConsistent(Step(s, ops[0]), ops[1..]);
    }
  }

  /**
   * The own-message filter is a substring test on the topic: a station whose
   * id occurs inside another station's id (station "1" and station "11")
   * ignores that station's events as if they were its own.
   */
  lemma OwnIdSubstringIgnored(s: StationState, other: string, k: nat, payload: Option<Payload>)
    requires k + |s.id| <= |other| && other[k..k + |s.id|] == s.id
    ensures Receive(s, EventosTopic(other), payload) == s
  {
    var topic := EventosTopic(other);
    var at := |"carregadores/"| + k;
    assert topic[at..at + |s.id|] == other[k..k + |s.id|];
    ContainsAt(topic, s.id, at);
  }

  /**
   * The same filter ignores every station's events when the own id occurs
   * in the fixed prefix of the events topic: stations "a", "c", "r" or
   * "carregadores" hear no one.
   */
  lemma TopicPrefixIdIgnoresAll(s: StationState, other: string, k: nat, payload: Option<Payload>)
    requires k + |s.id| <= |"carregadores/"| && "carregadores/"[k..k + |s.id|] == s.id
    ensures Receive(s, EventosTopic(other), payload) == s
  {
    var topic := EventosTopic(other);
    assert topic[k..k + |s.id|] == "carregadores/"[k..k + |s.id|];
    ContainsAt(topic, s.id, k);
  }

  /** Likewise for the fixed suffix: stations "e", "s" or "eventos" hear no one. */
  lemma TopicSuffixIdIgnoresAll(s: StationState, other: string, k: nat, payload: Option<Payload>)
    requires k + |s.id| <= |"/eventos"| && "/eventos"[k..k + |s.id|] == s.id
    ensures Receive(s, EventosTopic(other), payload) == s
  {
    var topic := EventosTopic(other);
    var at := |"carregadores/"| + |other| + k;
    assert topic[at..at + |s.id|] == "/eventos"[k..k + |s.id|];
    ContainsAt(topic, s.id, at);
  }

  /**
   * An empty car id is falsy: `conectar_carro("")` publishes an
   * `inicio_carga` but leaves the station free (status `livre`), so the next
   * car publishes a second `inicio_carga` with no `fim_carga` between.
   */
  lemma EmptyCarIdLeavesStationFree(id: string, next: string)
    requires next != ""
    ensures var s1 := Connect(Initial(id), "");
      && !Charging(s1)
      && s1.outbox == [Evento(id, Some(""), InicioCarga, 1, None), Status(id, Livre, Some(""), 0.0)]
      && Connect(s1, next).outbox == s1.outbox + [Evento(id, Some(next), InicioCarga, 2, None), Status(id, Ocupado, Some(next), 0.0)]
  {
  }

  /** A charging station as the source object: its clock, connected car, energy and what it has published. */
  class Carregador {
    const carregadorId: string
    const clock: LamportClock
    var carroConectado: Option<string>
    var energiaConsumida: real
    var outbox: seq<Msg>

    function Model(): StationState
      reads this, clock
    {
      StationState(carregadorId, clock.time, carroConectado, energiaConsumida, outbox)
    }

    /** A new station is free, has consumed nothing, published nothing, and its clock reads 0. */
    constructor (id: string)
      ensures Model() == Initial(id) && fresh(clock)
      ensures Consistent(Model())
    {
      carregadorId := id;
      clock := new LamportClock();
      carroConectado := None;
      energiaConsumida := 0.0;
      outbox := [];
      InitialConsistent(id);
    }

    /** `on_message`: only the clock can change, and only for another station's timestamped event. */
    method OnMessage(topic: string, payload: Option<Payload>)
      modifies clock
      ensures Contains(topic, carregadorId) ==> clock.time == old(clock.time)
      ensures !Contains(topic, carregadorId) && payload.Some? && payload.value.timestamp.Some? ==>
        clock.time == Merge(old(clock.time), payload.value.timestamp.value)
      ensures payload.None? || payload.value.timestamp.None? ==> clock.time == old(clock.time)
      ensures Model() == Receive(old(Model()), topic, payload)
      ensures old(Consistent(Model())) ==> Consistent(Model())
    {
      ghost var before := Model();
      if Contains(topic, carregadorId) {
        return;
      }
      if payload.Some? && payload.value.timestamp.Some? {
        var _ := clock.ReceiveEvent(payload.value.timestamp.value);
      }
      if Consistent(before) {
        ReceiveConsistent(before, topic, payload);
      }
    }

    /** `publicar_evento`: the event carries a fresh `send_event` timestamp and `carro_id or carro_conectado`. */
    method PublicarEvento(acao: string, carroId: Option<string>)
      modifies this, clock
      ensures clock.time == old(clock.time) + 1
      ensures carroConectado == old(carroConectado) && energiaConsumida == old(energiaConsumida)
      ensures outbox == old(outbox) + [Evento(carregadorId, if Truthy(carroId) then carroId else carroConectado, acao, clock.time, None)]
      ensures Model() == PublishEvento(old(Model()), acao, carroId)
    {
      var t := clock.SendEvent();
      var carro := if Truthy(carroId) then carroId else carroConectado;
      outbox := outbox + [Evento(carregadorId, carro, acao, t, None)];
    }

    /** `publicar_status`: `ocupado` exactly when a car is connected; the clock is untouched. */
    method PublicarStatus()
      modifies this
      ensures carroConectado == old(carroConectado) && energiaConsumida == old(energiaConsumida)
      ensures outbox == old(outbox) + [Status(carregadorId, if Truthy(carroConectado) then Ocupado else Livre, carroConectado, energiaConsumida)]
      ensures Model() == PublishStatus(old(Model()))
    {
      outbox := outbox + [Status(carregadorId, if Truthy(carroConectado) then Ocupado else Livre, carroConectado, energiaConsumida)];
    }

    /** `conectar_carro`: ignored while a car is connected; otherwise Free to Charging, announced by an event then a status. */
    method ConectarCarro(c: string)
      modifies this, clock
      ensures old(Charging(Model())) ==> Model() == old(Model())
      ensures !old(Charging(Model())) ==>
        && carroConectado == Some(c) && energiaConsumida == 0.0 && clock.time == old(clock.time) + 1
        && outbox == old(outbox) + [Evento(carregadorId, Some(c), InicioCarga, clock.time, None),
                                    Status(carregadorId, if c != "" then Ocupado else Livre, Some(c), 0.0)]
      ensures Model() == Connect(old(Model()), c)
      ensures old(Consistent(Model())) && c != "" ==> Consistent(Model())
    {
      ghost var before := Model();
      if Truthy(carroConectado) {
        return;
      }
      carroConectado := Some(c);
      energiaConsumida := 0.0;
      PublicarEvento(InicioCarga, carroConectado);
      PublicarStatus();
      if Consistent(before) && c != "" {
        ConnectConsistent(before, c);
      }
    }

    /**
     * `finalizar_carregamento`: ignored while free; otherwise a `fim_carga`
     * event with the car and the energy, then the car is cleared and a `livre`
     * status follows. The energy is kept until the next connection.
     */
    method FinalizarCarregamento()
      modifies this, clock
      ensures !old(Charging(Model())) ==> Model() == old(Model())
      ensures old(Charging(Model())) ==>
        && carroConectado == None && energiaConsumida == old(energiaConsumida) && clock.time == old(clock.time) + 1
        && outbox == old(outbox) + [Evento(carregadorId, old(carroConectado), FimCarga, clock.time, Some(energiaConsumida)),
                                    Status(carregadorId, Livre, None, energiaConsumida)]
      ensures Model() == Finish(old(Model()))
      ensures old(Consistent(Model())) ==> Consistent(Model())
    {
      ghost var before := Model();
      if !Truthy(carroConectado) {
        return;
      }
      var t := clock.SendEvent();
      outbox := outbox + [Evento(carregadorId, carroConectado, FimCarga, t, Some(energiaConsumida))];
      carroConectado := None;
      PublicarStatus();
      assert Model() == Finish(before);
      if Consistent(before) {
        FinishConsistent(before);
      }
    }

    /**
     * `simular_carregamento`: ignored while free; otherwise the energy grows by
     * the increment drawn from `uniform(0.5, 2.0)` and one status is published,
     * without touching the clock.
     */
    method SimularCarregamento(increment: real)
      requires 0.5 <= increment <= 2.0
      modifies this
      ensures !old(Charging(Model())) ==> Model() == old(Model())
      ensures old(Charging(Model())) ==>
        && carroConectado == old(carroConectado) && energiaConsumida == old(energiaConsumida) + increment
        && energiaConsumida > old(energiaConsumida)
        && outbox == old(outbox) + [Status(carregadorId, Ocupado, carroConectado, energiaConsumida)]
      ensures Model() == Charge(old(Model()), increment)
      ensures old(Consistent(Model())) ==> Consistent(Model())
    {
      ghost var before := Model();
      if Truthy(carroConectado) {
        energiaConsumida := energiaConsumida + increment;
        PublicarStatus();
        if Consistent(before) {
          ChargeConsistent(before, increment);
        }
      }
    }

    /** The shutdown branch of `run`: an active session is finished before disconnecting. */
    method Shutdown()
      modifies this, clock
      ensures Model() == Stop(old(Model()))
      ensures !Charging(Model())
      ensures old(Consistent(Model())) ==> Consistent(Model())
    {
      if Truthy(carroConectado) {
        FinalizarCarregamento();
      }
    }
  }
}
