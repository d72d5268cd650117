/**
 * The gateway's aggregation core (api/main.py, and the same logic in api.py):
 * a latest-wins map of status records keyed by charger id, an event log
 * capped at 50 entries with the oldest evicted first, and the registry of
 * connected viewers.
 */
module Gateway {
  import opened Wrappers
  import opened Messages

  /** The length the event log is trimmed back to. */
  const MaxEventos: nat := 50

  /** The contents of `app_state`. */
  datatype Snapshot = Snapshot(carregadores: map<string, Payload>, eventos: seq<Payload>)

  const Initial: Snapshot := Snapshot(map[], [])

  /** `append`, then `pop(0)` when the log has grown beyond the cap. */
  function AppendEvento(eventos: seq<Payload>, p: Payload): (r: seq<Payload>)
    ensures |eventos| < MaxEventos ==> r == eventos + [p]
    ensures |eventos| <= MaxEventos ==> |r| <= MaxEventos
  {
    var e := eventos + [p];
    if |e| > MaxEventos then e[1..] else e
  }

  /**
   * The body of `on_message`. Undecodable payloads change nothing. The
   * `"status"` substring test comes first; only a truthy `carregador` is
   * used as a key.
   */
  function Handle(st: Snapshot, topic: string, payload: Option<Payload>): (r: Snapshot)
    ensures |st.eventos| <= MaxEventos ==> |r.eventos| <= MaxEventos
  {
    match payload
    case None => st
    case Some(p) =>
      if Contains(topic, "status") then
        if Truthy(p.carregador) then st.(carregadores := st.carregadores[p.carregador.value := p]) else st
      else if Contains(topic, "eventos") then st.(eventos := AppendEvento(st.eventos, p))
      else st
  }

  /**
   * One message, case by case: a status record replaces the charger's entry
   * and nothing else, an event is appended to the log and touches nothing
   * else, and the log stays within the cap.
   */
  lemma HandleCases(st: Snapshot, topic: string, payload: Option<Payload>)
    requires |st.eventos| <= MaxEventos
    ensures var r := Handle(st, topic, payload);
      && |r.eventos| <= MaxEventos
      && (payload.None? ==> r == st)
      && (payload.Some? && Contains(topic, "status") ==>
            && r.eventos == st.eventos
            && (Truthy(payload.value.carregador) ==>
                  && r.carregadores.Keys == st.carregadores.Keys + {payload.value.carregador.value}
                  && r.carregadores[payload.value.carregador.value] == payload.value
                  && forall k :: k in st.carregadores && k != payload.value.carregador.value ==> r.carregadores[k] == st.carregadores[k])
            && (!Truthy(payload.value.carregador) ==> r == st))
      && (payload.Some? && !Contains(topic, "status") && Contains(topic, "eventos") ==>
            && r.carregadores == st.carregadores
            && r.eventos == AppendEvento(st.eventos, payload.value))
      && (!Contains(topic, "status") && !Contains(topic, "eventos") ==> r == st)
  {
  }

  /** The last `n` elements of `s` (all of them when there are fewer). */
  function LastN<T>(s: seq<T>, n: nat): (r: seq<T>)
    ensures |r| <= n && |r| <= |s|
  {
    if |s| <= n then s else s[|s| - n..]
  }

  /** Trimming before appending more and trimming once at the end give the same window. */
  lemma LastNOfLastN<T>(s: seq<T>, t: seq<T>, n: nat)
    ensures LastN(LastN(s, n) + t, n) == LastN(s + t, n)
  {
    if |s| > n {
      var u := LastN(s, n) + t;
      var w := s + t;
      assert |u| >= n;
      if |u| > n {
        forall j | |u| - n <= j < |u|
          ensures u[j] == w[j + (|s| - n)]
        {
          if j < n {
            assert u[j] == s[|s| - n + j];
          } else {
            assert u[j] == t[j - n];
          }
        }
        assert LastN(u, n) == LastN(w, n);
      } else {
        assert t == [];
        assert u == s[|s| - n..];
        assert w == s;
      }
    }
  }

  /** Appending to a log within the cap is taking the last `MaxEventos` of the longer log. */
  lemma AppendEventoIsWindow(eventos: seq<Payload>, p: Payload)
    requires |eventos| <= MaxEventos
    ensures AppendEvento(eventos, p) == LastN(eventos + [p], MaxEventos)
  {
  }

  /** A message as the gateway receives it: its topic and its payload, if it decodes. */
  datatype Inbound = Inbound(topic: string, payload: Option<Payload>)

  function HandleAll(st: Snapshot, msgs: seq<Inbound>): Snapshot
    decreases |msgs|
  {
    if msgs == [] then st else HandleAll(Handle(st, msgs[0].topic, msgs[0].payload), msgs[1..])
  }

  /** The payload of `m` if the handler treats it as an event, as a sequence of zero or one. */
  function EventOf(m: Inbound): seq<Payload>
  {
    if m.payload.Some? && !Contains(m.topic, "status") && Contains(m.topic, "eventos") then [m.payload.value] else []
  }

  /** The payloads among `msgs` that the handler treats as events, in arrival order. */
  function EventPayloads(msgs: seq<Inbound>): seq<Payload>
    decreases |msgs|
  {
    if msgs == [] then [] else EventOf(msgs[0]) + EventPayloads(msgs[1..])
  }

  /** One message, seen through the window of the last `MaxEventos` events. */
  lemma StepWindow(st: Snapshot, m: Inbound, rest: seq<Payload>)
    requires |st.eventos| <= MaxEventos
    ensures LastN(Handle(st, m.topic, m.payload).eventos + rest, MaxEventos) == LastN(st.eventos + EventOf(m) + rest, MaxEventos)
  {
    var next := Handle(st, m.topic, m.payload);
    HandleCases(st, m.topic, m.payload);
    if EventOf(m) == [] {
      assert next.eventos == st.eventos;
      assert st.eventos + EventOf(m) == st.eventos;
    } else {
      AppendEventoIsWindow(st.eventos, m.payload.value);
      LastNOfLastN(st.eventos + [m.payload.value], rest, MaxEventos);
    }
  }

  /**
   * FIFO eviction whatever the interleaving with status records: after any
   * sequence of messages the log holds the last 50 of the old log followed
   * by the events received, in arrival order.
   */
  lemma {:induction false} HandleAllEventWindow(st: Snapshot, msgs: seq<Inbound>)
    requires |st.eventos| <= MaxEventos
    ensures HandleAll(st, msgs).eventos == LastN(st.eventos + EventPayloads(msgs), MaxEventos)
    decreases |msgs|
  {
    if msgs == [] {
      assert st.eventos + [] == st.eventos;
    } else {
      var next := Handle(st, msgs[0].topic, msgs[0].payload);
      HandleAllStep(st, msgs);
      HandleAllEventWindow(next, msgs[1..]);
    }
  }

  /** The first message of a sequence, handled and seen through the window. */
  lemma HandleAllStep(st: Snapshot, msgs: seq<Inbound>)
    requires |st.eventos| <= MaxEventos && msgs != []
    ensures var next := Handle(st, msgs[0].topic, msgs[0].payload);
      && HandleAll(st, msgs) == HandleAll(next, msgs[1..])
      && |next.eventos| <= MaxEventos
      && LastN(next.eventos + EventPayloads(msgs[1..]), MaxEventos) == LastN(st.eventos + EventPayloads(msgs), MaxEventos)
  {
    var rest := EventPayloads(msgs[1..]);
    StepWindow(st, msgs[0], rest);
    assert EventPayloads(msgs) == EventOf(msgs[0]) + rest;
    assert st.eventos + EventOf(msgs[0]) + rest == st.eventos + EventPayloads(msgs);
  }

  /** A character of `sub` that `s` lacks rules out `sub in s`. */
  lemma {:induction false} MissingCharNotContained(s: string, sub: string, c: char)
    requires c in sub && c !in s
    ensures !Contains(s, sub)
    decreases |s|
  {
    if |s| > 0 {
      assert forall x :: x in s[1..] ==> x in s;
      MissingCharNotContained(s[1..], sub, c);
    }
  }

  /** The events topic of a station whose id has no 'u' is not taken for a status topic. */
  lemma EventosTopicIsNoStatusTopic(id: string)
    requires 'u' !in id
    ensures !Contains(EventosTopic(id), "status") && Contains(EventosTopic(id), "eventos")
  {
    TopicsContainTheirKind(id);
    assert "status"[4] == 'u';
    MissingCharNotContained(EventosTopic(id), "status", 'u');
  }

  /** Each payload delivered on the events topic of station `id`, in order. */
  function EventMessages(id: string, ps: seq<Payload>): seq<Inbound>
  {
    seq(|ps|, i requires 0 <= i < |ps| => Inbound(EventosTopic(id), Some(ps[i])))
  }

  /** 51 events into an empty log leave events 2..51. */
  lemma FiftyOneEventsEvictTheFirst(ps: seq<Payload>)
    requires |ps| == MaxEventos + 1
    ensures HandleAll(Initial, EventMessages("A", ps)).eventos == ps[1..]
  {
    var msgs := EventMessages("A", ps);
    EventosTopicIsNoStatusTopic("A");
    EventPayloadsOfEventTopics(msgs, ps, "A");
    HandleAllEventWindow(Initial, msgs);
    assert Initial.eventos + EventPayloads(msgs) == ps;
    assert LastN(ps, MaxEventos) == ps[1..];
  }

  lemma {:induction false} EventPayloadsOfEventTopics(msgs: seq<Inbound>, ps: seq<Payload>, id: string)
    requires |msgs| == |ps| && !Contains(EventosTopic(id), "status") && Contains(EventosTopic(id), "eventos")
    requires forall i :: 0 <= i < |msgs| ==> msgs[i] == Inbound(EventosTopic(id), Some(ps[i]))
    ensures EventPayloads(msgs) == ps
    decreases |msgs|
  {
    if msgs != [] {
      EventPayloadsOfEventTopics(msgs[1..], ps[1..], id);
      assert ps == [ps[0]] + ps[1..];
    }
  }

  /** A connected viewer (a WebSocket, compared by identity). */
  datatype Viewer = Viewer(id: nat)

  /** Position of the first occurrence of `v` in `s`. */
  function FirstIndex(s: seq<Viewer>, v: Viewer): (i: nat)
    requires v in s
    ensures i < |s| && s[i] == v && v !in s[..i]
  {
    if s[0] == v then 0 else 1 + FirstIndex(s[1..], v)
  }

  /** `list.remove(v)`: drop the first occurrence of `v`, if any. */
  function RemoveFirst(s: seq<Viewer>, v: Viewer): (r: seq<Viewer>)
    ensures |r| == if v in s then |s| - 1 else |s|
    decreases |s|
  {
    if s == [] then []
    else if s[0] == v then s[1..]
    else [s[0]] + RemoveFirst(s[1..], v)
  }

  /** Removal takes out one occurrence of `v` and nothing else, counted with multiplicity. */
  lemma {:induction false} RemoveFirstMultiset(s: seq<Viewer>, v: Viewer)
    ensures multiset(RemoveFirst(s, v)) == multiset(s) - multiset{v}
    decreases |s|
  {
    if s != [] {
      assert s == [s[0]] + s[1..];
      RemoveFirstMultiset(s[1..], v);
    }
  }

  /** Removal takes out exactly the first occurrence and keeps the others in order. */
  lemma {:induction false} RemoveFirstSplits(s: seq<Viewer>, v: Viewer)
    requires v in s
    ensures RemoveFirst(s, v) == s[..FirstIndex(s, v)] + s[FirstIndex(s, v) + 1..]
    decreases |s|
  {
    if s[0] != v {
      var t := s[1..];
      assert s == [s[0]] + t;
      var i := FirstIndex(t, v);
      RemoveFirstSplits(t, v);
      assert FirstIndex(s, v) == i + 1 && RemoveFirst(s, v) == [s[0]] + RemoveFirst(t, v);
      ConsSplit(s, i);
    }
  }

  /** Putting the head back in front of a split tail splits the whole sequence one place later. */
  lemma ConsSplit(s: seq<Viewer>, i: nat)
    requires i + 1 < |s|
    ensures [s[0]] + (s[1..][..i] + s[1..][i + 1..]) == s[..i + 1] + s[i + 2..]
  {
    assert s[..i + 1] == [s[0]] + s[1..][..i];
    assert s[i + 2..] == s[1..][i + 1..];
  }

  /** Removing an unregistered viewer changes nothing. */
  lemma {:induction false} RemoveFirstAbsent(s: seq<Viewer>, v: Viewer)
    requires v !in s
    ensures RemoveFirst(s, v) == s
    decreases |s|
  {
    if s != [] {
      assert v !in s[1..];
      RemoveFirstAbsent(s[1..], v);
      assert s == [s[0]] + s[1..];
    }
  }

  /** `ConnectionManager`: the viewers currently connected, in connection order. */
  class ConnectionManager {
    var activeConnections: seq<Viewer>

    constructor ()
      ensures activeConnections == []
    {
      activeConnections := [];
    }

    /** `connect`: the viewer joins at the end (the WebSocket handshake is not modelled). */
    method Connect(v: Viewer)
      modifies this
      ensures activeConnections == old(activeConnections) + [v]
    {
      activeConnections := activeConnections + [v];
    }

    /**
     * `disconnect`: one occurrence of the viewer leaves; when it is not
     * registered, `list.remove` raises and nothing changes (`removed` is false).
     */
    method Disconnect(v: Viewer) returns (removed: bool)
      modifies this
      ensures removed <==> v in old(activeConnections)
      ensures removed ==>
        (var i := old(FirstIndex(activeConnections, v));
         activeConnections == old(activeConnections[..i] + activeConnections[i + 1..]))
      ensures !removed ==> activeConnections == old(activeConnections)
      ensures activeConnections == RemoveFirst(old(activeConnections), v)
    {
      removed := v in activeConnections;
      if removed {
        RemoveFirstSplits(activeConnections, v);
      } else {
        RemoveFirstAbsent(activeConnections, v);
      }
      if removed {
        var i := FirstIndex(activeConnections, v);
        activeConnections := activeConnections[..i] + activeConnections[i + 1..];
      }
    }
  }

  /** The global `app_state` and the MQTT callback that updates it. */
  class AppState {
    var carregadores: map<string, Payload>
    var eventos: seq<Payload>

    function Model(): Snapshot
      reads this
    {
      Snapshot(carregadores, eventos)
    }

    constructor ()
      ensures Model() == Initial
    {
      carregadores := map[];
      eventos := [];
    }

    /** `on_message` (the broadcast to viewers that follows the update is not modelled). */
    method OnMessage(topic: string, payload: Option<Payload>)
      modifies this
      ensures Model() == Handle(old(Model()), topic, payload)
      ensures old(|eventos|) <= MaxEventos ==> |eventos| <= MaxEventos
    {
      if payload.None? {
        return;
      }
      var p := payload.value;
      if Contains(topic, "status") {
        var carregadorId := p.carregador;
        if Truthy(carregadorId) {
          carregadores := carregadores[carregadorId.value := p];
        }
      } else if Contains(topic, "eventos") {
        eventos := eventos + [p];
        if |eventos| > MaxEventos {
          eventos := eventos[1..];
        }
      }
    }
  }
}
