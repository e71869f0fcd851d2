/** The registry's goroutine body as the source runs it: commands, activity
    notes, the sweep and the start of shutdown, changing its maps in place. Each
    handler takes the object from one state of the transition system to the state
    after the matching steps. The clock is a parameter. */
module RegistryActor {
  import opened Base
  import opened HubModel
  import opened HubSafety
  import opened Connections
  import C = Client
  import RoomActor

  /** What `clients` has for a connection that is in no room. */
  const NOWHERE: Name := ""

  function Where(n: Name): Option<Name> { if n == NOWHERE then None else Some(n) }

  /** The client records as the transition system has them. */
  ghost function Records(id: Connection -> Cid, clients: map<Connection, Name>): map<Cid, Option<Name>>
    requires Distinct(id, clients.Keys)
  {
    map c | c in clients :: id(c) := Where(clients[c])
  }

  lemma RecordsPut(id: Connection -> Cid, clients: map<Connection, Name>, c: Connection, n: Name)
    requires Distinct(id, clients.Keys + {c})
    ensures Distinct(id, clients[c := n].Keys)
    ensures Records(id, clients[c := n]) == Records(id, clients)[id(c) := Where(n)]
  {
    var m, m' := Records(id, clients), Records(id, clients[c := n]);
    assert forall x :: x in m' <==> x in m[id(c) := Where(n)];
  }

  lemma RecordsDrop(id: Connection -> Cid, clients: map<Connection, Name>, c: Connection)
    requires Distinct(id, clients.Keys + {c})
    ensures Distinct(id, (clients - {c}).Keys)
    ensures Records(id, clients - {c}) == Records(id, clients) - {id(c)}
  {
    var m, m' := Records(id, clients), Records(id, clients - {c});
    assert forall x :: x in m' <==> x in m - {id(c)};
  }

  // ---- The state the registry's fields stand for -----------------------

  /** A state with this registry, these stop tokens and these queues. */
  ghost predicate Stands(
      st: State, id: Connection -> Cid, reg: HubModel.Registry, stopped: set<Rid>, qs: map<Connection, C.Queue<Out>>) {
    && st.reg == reg
    && (forall c :: c in qs ==> id(c) in st.queues && st.queues[id(c)] == qs[c])
    && (forall n :: n in reg.table ==> reg.table[n] in st.rooms)
    && (forall r :: r in stopped <==> r in st.rooms && st.rooms[r].stop)
  }

  /** The registry after a join: the client recorded, the room opened if need be. */
  function WithJoin(reg: HubModel.Registry, x: Cid, n: Name, rid: Rid): HubModel.Registry {
    var made := n !in reg.table;
    reg.(
      clients := reg.clients[x := Some(n)],
      table := if made then reg.table[n := rid] else reg.table,
      waiting := if made then reg.waiting + 1 else reg.waiting)
  }

  lemma JoinTaken(st: State, x: Cid, rid: Rid)
    requires st.reg.mode.Receiving? && x in st.sessions && st.sessions[x].RegJoining?
    ensures var st', n := Command(st, x, rid), st.sessions[x].name;
      && st'.queues == st.queues && st'.reg == WithJoin(st.reg, x, n, rid)
      && (st'.rooms == st.rooms || st'.rooms == st.rooms[rid := NewRoom(n, x)])
      && (n !in st.reg.table ==> rid in st'.rooms)
  {
    hide AfterCommand;
  }

  lemma JoinHanded(st: State, x: Cid, rid: Rid)
    requires st.reg.mode.Receiving? && x in st.sessions && st.sessions[x].RegJoining?
    ensures var s', n := Command(st, x, rid).sessions[x], st.sessions[x].name;
      s'.Awaiting? && s'.handed == Some(if n in st.reg.table then st.reg.table[n] else rid)
  {
  }

  lemma JoinStands(
      st: State, id: Connection -> Cid, reg: HubModel.Registry, stopped: set<Rid>, qs: map<Connection, C.Queue<Out>>,
      c: Connection, q: C.Queue<Out>, rid: Rid)
    requires Stands(st, id, reg, stopped, qs) && reg.mode.Receiving? && rid !in st.rooms
    requires id(c) in st.sessions && st.sessions[id(c)].RegJoining? && id(c) in st.queues && st.queues[id(c)] == q
    ensures Stands(
      Command(st, id(c), rid), id, WithJoin(reg, id(c), st.sessions[id(c)].name, rid), stopped, qs[c := q])
  {
    JoinTaken(st, id(c), rid);
    assert !NewRoom(st.sessions[id(c)].name, id(c)).stop;
    hide Command, NewRoom;
  }

  lemma PlainTaken(st: State, x: Cid, rid: Rid)
    requires st.reg.mode.Receiving? && x in st.sessions && AtRegistry(st.sessions[x]) && !st.sessions[x].RegJoining?
    ensures var st', clients := Command(st, x, rid), st.reg.clients;
      && st'.queues == st.queues && st'.rooms == st.rooms
      && st'.reg == st.reg.(clients := if st.sessions[x].Removing? then clients - {x} else clients[x := None])
  {
    hide AfterCommand;
  }

  lemma PlainStands(
      st: State, id: Connection -> Cid, reg: HubModel.Registry, stopped: set<Rid>, qs: map<Connection, C.Queue<Out>>,
      c: Connection, q: C.Queue<Out>, rid: Rid)
    requires Stands(st, id, reg, stopped, qs) && reg.mode.Receiving?
    requires id(c) in st.sessions && AtRegistry(st.sessions[id(c)]) && !st.sessions[id(c)].RegJoining?
    requires id(c) in st.queues && st.queues[id(c)] == q
    ensures var st' := Command(st, id(c), rid);
      if st.sessions[id(c)].Removing? then
        Stands(st', id, reg.(clients := reg.clients - {id(c)}), stopped, qs - {c})
      else
        Stands(st', id, reg.(clients := reg.clients[id(c) := None]), stopped, qs[c := q])
  {
    PlainTaken(st, id(c), rid);
    hide Command, AtRegistry;
  }

  lemma EvictStands(
      st: State, id: Connection -> Cid, reg: HubModel.Registry, stopped: set<Rid>, qs: map<Connection, C.Queue<Out>>,
      r: Rid)
    requires Stands(st, id, reg, stopped, qs) && r in st.rooms && st.rooms[r].phase.Evicting?
    ensures Stands(
      EvictByName(st, r, false), id, reg.(table := reg.table - {st.rooms[r].name}), stopped, qs)
  {
  }

  lemma PingTaken(w: Hub, s: State, x: Cid, drop: bool)
    requires s.reg.mode.Pinging? && x in s.reg.mode.rest && x in s.queues
    ensures var l, note := LPing(x, drop), s.reg.mode.note;
      && Guard(w, s, l)
      && Apply(w, s, l) == s.(
           queues := s.queues[x := C.Send(w.cfg.Buffer(), s.queues[x], Activity(note), drop)],
           reg := Pinged(s.reg, s.reg.mode.rest - {x}, note))
  {
  }

  lemma PingStands(
      w: Hub, s: State, id: Connection -> Cid, reg: HubModel.Registry, stopped: set<Rid>,
      qs: map<Connection, C.Queue<Out>>, c: Connection, drop: bool)
    requires Stands(s, id, reg, stopped, qs) && c in qs && Distinct(id, qs.Keys)
    requires reg.mode.Pinging? && id(c) in reg.mode.rest
    ensures var l, note := LPing(id(c), drop), reg.mode.note;
      && Guard(w, s, l)
      && Stands(Apply(w, s, l), id, Pinged(reg, reg.mode.rest - {id(c)}, note), stopped,
           qs[c := C.Send(w.cfg.Buffer(), qs[c], Activity(note), drop)])
  {
    PingTaken(w, s, id(c), drop);
    hide Guard, Apply, C.Send, Pinged;
  }

  lemma PingedIs(reg: HubModel.Registry, due: set<Cid>, note: Note, x: Cid)
    requires x in due
    ensures var reg' := Pinged(reg, due, note);
      && reg'.mode == Pinging(note, due) && Pinged(reg', due - {x}, note) == Pinged(reg, due - {x}, note)
  {
  }

  function AllKilled(qs: map<Connection, C.Queue<Out>>): map<Connection, C.Queue<Out>> {
    map c | c in qs :: C.Kill(qs[c], C.CLOSE_SERVER_ERROR)
  }

  lemma AllKilledIs(qs: map<Connection, C.Queue<Out>>, qs': map<Connection, C.Queue<Out>>)
    requires qs'.Keys == qs.Keys && forall c :: c in qs ==> qs'[c] == C.Kill(qs[c], C.CLOSE_SERVER_ERROR)
    ensures qs' == AllKilled(qs)
  {
  }

  lemma ShutdownStands(
      st: State, id: Connection -> Cid, reg: HubModel.Registry, stopped: set<Rid>, qs: map<Connection, C.Queue<Out>>)
    requires Stands(st, id, reg, stopped, qs) && forall c :: c in qs ==> id(c) in reg.clients
    ensures Stands(
      HubModel.Shutdown(st), id, reg.(mode := Winding), stopped + reg.table.Values, AllKilled(qs))
  {
    hide C.Kill;
  }

  class Registry {
    const idleTimeout: int
    ghost const id: Connection -> Cid
    var rooms: map<Name, Rid>
    var lastUse: map<Name, int>
    var clients: map<Connection, Name>
    /** The buffered activity channel. */
    var activity: seq<Note>
    /** The wait group's counter. */
    var running: int
    var stopping: bool
    /** The rooms whose shutdown channel holds the token. */
    var stopped: set<Rid>

    ghost predicate Valid()
      reads this, clients.Keys
    {
      && Distinct(id, clients.Keys) && (forall c :: c in clients ==> c.Valid()) && NOWHERE !in rooms
      && forall i :: 0 <= i < |activity| ==> activity[i].room != NOWHERE
    }

    /** The registry as the transition system has it, between two turns of its loop. */
    ghost function View(): HubModel.Registry
      reads this
      requires Distinct(id, clients.Keys)
    {
      HubModel.Registry(if stopping then Winding else Receiving, rooms, Records(id, clients), activity, running)
    }

    ghost function Queues(): map<Connection, C.Queue<Out>>
      reads this, clients.Keys
    {
      map c | c in clients :: c.Value()
    }

    /** Every connection has the buffer the hub is configured with. */
    ghost predicate Buffered(w: Hub)
      reads this
    {
      forall c :: c in clients ==> c.buffer == w.cfg.Buffer()
    }

    /** The object is the registry of the state. */
    ghost predicate Is(w: Hub, st: State)
      reads this, clients.Keys
      requires Distinct(id, clients.Keys)
    {
      Buffered(w) && Stands(st, id, View(), stopped, Queues())
    }

    constructor (idleTimeout: int, ghost id: Connection -> Cid)
      ensures Valid() && this.idleTimeout == idleTimeout && this.id == id
      ensures forall w :: Is(w, Init())
    {
      this.idleTimeout, this.id := idleTimeout, id;
      rooms, lastUse, clients, activity, running := map[], map[], map[], [], 0;
      stopping, stopped := false, {};
    }

    predicate OccupiedBy(n: Name)
      reads this
    {
      n != NOWHERE && exists c :: c in clients && clients[c] == n
    }

    lemma OccupiedIs(n: Name)
      requires Distinct(id, clients.Keys) && n != NOWHERE
      ensures OccupiedBy(n) <==> Occupied(View(), n)
    {
      if OccupiedBy(n) {
        var c :| c in clients && clients[c] == n;
        assert id(c) in View().clients && View().clients[id(c)] == Some(n);
      }
    }

    /** A command the state has session c at: the registry may take it. */
    ghost predicate Offered(w: Hub, st: State, c: Connection)
      reads this, clients.Keys, c
    {
      && Valid() && !stopping && Is(w, st) && Distinct(id, clients.Keys + {c}) && Queued(w, st, id, c)
      && id(c) in st.sessions
    }

    /** A join ends in the state after its command, and is answered with the room
        that state hands the session: the one the table has, or a new one. */
    method JoinRoom(c: Connection, name: Name, rid: Rid, now: int, ghost w: Hub, ghost st: State)
      returns (room: Rid, created: bool)
      requires Offered(w, st, c) && name != NOWHERE && rid !in st.rooms
      requires st.sessions[id(c)].RegJoining? && st.sessions[id(c)].name == name
      modifies this
      ensures Valid() && Is(w, Command(st, id(c), rid)) && !stopping
      ensures created <==> room !in st.rooms
      ensures var s := Command(st, id(c), rid).sessions[id(c)]; s.Awaiting? && s.handed == Some(room)
      ensures lastUse == old(lastUse)[name := now]
    {
      hide Command, Records, Stands, WithJoin, NewRoom, Queued;
      JoinTie(w, st, c, name, rid);
      RecordsPut(id, clients, c, name);
      hide Distinct;
      room, created := Resolve(name, rid, now);
      clients := clients[c := name];
      assert View() == WithJoin(old(View()), id(c), name, rid) by {
        WithJoinIs(old(View()), id(c), name, rid);
      }
      assert Queues() == old(Queues())[c := c.Value()];
    }

    /** The room of a name, opened if there is none. */
    method Resolve(name: Name, rid: Rid, now: int) returns (room: Rid, created: bool)
      modifies this`rooms, this`running, this`lastUse
      ensures created <==> name !in old(rooms)
      ensures rooms == (if created then old(rooms)[name := rid] else old(rooms)) && room == rooms[name]
      ensures running == (if created then old(running) + 1 else old(running))
      ensures lastUse == old(lastUse)[name := now]
    {
      created := name !in rooms;
      if created {
        rooms := rooms[name := rid];
        running := running + 1;
      }
      room := rooms[name];
      lastUse := lastUse[name := now];
    }

    /** What the join comes to, in terms of the fields before it. */
    lemma JoinTie(w: Hub, st: State, c: Connection, name: Name, rid: Rid)
      requires Offered(w, st, c) && st.sessions[id(c)].RegJoining? && st.sessions[id(c)].name == name
      requires rid !in st.rooms
      ensures c.Valid() && c.buffer == w.cfg.Buffer()
      ensures Stands(
        Command(st, id(c), rid), id, WithJoin(View(), id(c), name, rid), stopped, Queues()[c := c.Value()])
      ensures var s' := Command(st, id(c), rid).sessions[id(c)];
        s'.Awaiting? && s'.handed == Some(if name in rooms then rooms[name] else rid)
      ensures name in rooms ==> rooms[name] in st.rooms
    {
      JoinHanded(st, id(c), rid);
      hide Command, Records, WithJoin;
      assert name in rooms ==> rooms[name] in st.rooms;
      hide Stands;
      JoinStands(st, id, View(), stopped, Queues(), c, c.Value(), rid);
    }

    /** A new connection, or one that left its room, is recorded in no room. */
    method PutNowhere(c: Connection, ghost w: Hub, ghost st: State, ghost rid: Rid)
      requires Offered(w, st, c) && (st.sessions[id(c)].Adding? || st.sessions[id(c)].RegLeaving?)
      modifies this`clients
      ensures Valid() && Is(w, Command(st, id(c), rid))
    {
      hide Command, Records, Stands;
      PlainStands(st, id, View(), stopped, Queues(), c, c.Value(), rid);
      RecordsPut(id, clients, c, NOWHERE);
      clients := clients[c := NOWHERE];
      assert Queues() == old(Queues())[c := c.Value()];
    }

    /** A closed connection is forgotten, and never pinged again. */
    method RemoveClient(c: Connection, ghost w: Hub, ghost st: State, ghost rid: Rid)
      requires Offered(w, st, c) && st.sessions[id(c)].Removing?
      modifies this`clients
      ensures Valid() && Is(w, Command(st, id(c), rid)) && id(c) !in View().clients
    {
      hide Command, Records, Stands;
      PlainStands(st, id, View(), stopped, Queues(), c, c.Value(), rid);
      RecordsDrop(id, clients, c);
      clients := clients - {c};
      assert Queues() == old(Queues()) - {c};
    }

    /** A failing room's evict command. */
    method EvictRoom(name: Name, ghost w: Hub, ghost st: State, ghost r: Rid)
      requires Valid() && !stopping && Is(w, st) && RoomGuard(w, st, LEvict(r, false)) && st.rooms[r].name == name
      modifies this`rooms, this`lastUse
      ensures Valid() && Is(w, EvictByName(st, r, false)) && name !in rooms && lastUse == old(lastUse) - {name}
    {
      EvictStands(st, id, View(), stopped, Queues(), r);
      hide EvictByName, Records, RoomGuard, Stands;
      rooms := rooms - {name};
      lastUse := lastUse - {name};
      assert Queues() == old(Queues());
    }

    // ---- Activity --------------------------------------------------------

    /** The clients among `rest` that are not in the note's room. */
    ghost function Due(rest: set<Connection>, room: Name): set<Cid>
      reads this
      requires rest <= clients.Keys
    {
      set c | c in rest && clients[c] != room :: id(c)
    }

    lemma DueIsElsewhere(room: Name)
      requires Distinct(id, clients.Keys) && room != NOWHERE
      ensures Due(clients.Keys, room) == Elsewhere(View(), room)
    {
      forall x | x in Elsewhere(View(), room) ensures x in Due(clients.Keys, room) {
        var c :| c in clients && id(c) == x;
      }
      forall x | x in Due(clients.Keys, room) ensures x in Elsewhere(View(), room) {
        var c :| c in clients && clients[c] != room && id(c) == x;
        assert View().clients[id(c)] == Where(clients[c]);
      }
    }

    lemma DueWithout(rest: set<Connection>, room: Name, c: Connection)
      requires Distinct(id, clients.Keys) && rest <= clients.Keys && c in rest
      ensures Due(rest - {c}, room) ==
        if clients[c] != room then Due(rest, room) - {id(c)} else Due(rest, room)
    {
      assert forall d :: d in rest && d != c ==> id(d) != id(c);
    }

    /** The registry in the middle of the pings for a note. */
    ghost predicate IsPinging(w: Hub, s: State, note: Note, due: set<Cid>)
      reads this, clients.Keys
      requires Distinct(id, clients.Keys)
    {
      Buffered(w) && Stands(s, id, Pinged(View(), due, note), stopped, Queues())
    }

    lemma FirstPing(w: Hub, st: State, note: Note)
      requires Distinct(id, clients.Keys) && !stopping && note.room != NOWHERE && Buffered(w)
      requires Stands(st, id, View().(notes := [note] + activity), stopped, Queues())
      ensures st.reg.notes != [] && IsPinging(w, TakeNote(st), note, Due(clients.Keys, note.room))
      ensures Reaches(w, st, [LTakeNote], TakeNote(st))
    {
      DueIsElsewhere(note.room);
      ReachesOne(w, st, LTakeNote);
      hide Reaches, Records, Elsewhere;
      assert Elsewhere(st.reg, note.room) == Elsewhere(View(), note.room) by {
        SameElsewhere(st.reg, View(), note.room);
      }
    }

    lemma LastPing(w: Hub, s: State, note: Note)
      requires Distinct(id, clients.Keys) && !stopping && IsPinging(w, s, note, Due({}, note.room))
      ensures Is(w, s)
    {
      assert Due({}, note.room) == {};
      hide Stands, Records, Queues;
    }

    /** One note: every client elsewhere is sent the ping, or closed, and clients
        of the room are left alone; as the run that takes the note and pings the
        clients one by one. */
    method Note(now: int, ghost w: Hub, ghost st: State) returns (ghost ls: seq<Label>, ghost s: State)
      requires Valid() && !stopping && Is(w, st) && activity != []
      modifies this`lastUse, this`activity, clients.Keys
      ensures Valid() && Reaches(w, st, ls, s) && Is(w, s)
      ensures ls != [] && ls[0] == LTakeNote && forall i :: 0 < i < |ls| ==> ls[i].LPing?
      ensures lastUse == old(lastUse)[old(activity)[0].room := now]
      ensures forall c :: c in clients ==>
        if clients[c] == old(activity)[0].room then c.Value() == old(c.Value())
        else RoomActor.Sent(c.buffer, old(c.Value()), c.Value(), Activity(old(activity)[0]))
    {
      hide Reaches, TakeNote, IsPinging, Due, RoomActor.Sent, Stands, Records;
      var note := activity[0];
      lastUse := lastUse[note.room := now];
      activity := activity[1..];
      assert View().(notes := [note] + activity) == old(View()) && Queues() == old(Queues());
      FirstPing(w, st, note);
      ls := [LTakeNote];
      ls, s := PingAll(note, w, st, ls, TakeNote(st));
      LastPing(w, s, note);
    }

    /** The ping loop. */
    method PingAll(note: Note, ghost w: Hub, ghost st: State, ghost ls0: seq<Label>, ghost s0: State)
      returns (ghost ls: seq<Label>, ghost s: State)
      requires Valid() && IsPinging(w, s0, note, Due(clients.Keys, note.room))
      requires Reaches(w, st, ls0, s0)
      modifies clients.Keys
      ensures Valid() && IsPinging(w, s, note, Due({}, note.room))
      ensures Reaches(w, st, ls, s)
      ensures ls0 <= ls && forall i :: |ls0| <= i < |ls| ==> ls[i].LPing?
      ensures forall c :: c in clients ==>
        if clients[c] == note.room then c.Value() == old(c.Value())
        else RoomActor.Sent(c.buffer, old(c.Value()), c.Value(), Activity(note))
    {
      hide Reaches, Guard, Apply, RoomActor.Sent, IsPinging, Due, Stands;
      var rest := clients.Keys;
      ls, s := ls0, s0;
      while rest != {}
        invariant rest <= clients.Keys && Valid()
        invariant forall c :: c in rest ==> c.Value() == old(c.Value())
        invariant forall c :: c in clients && c !in rest ==>
          if clients[c] == note.room then c.Value() == old(c.Value())
          else RoomActor.Sent(c.buffer, old(c.Value()), c.Value(), Activity(note))
        invariant IsPinging(w, s, note, Due(rest, note.room))
        invariant Reaches(w, st, ls, s)
        invariant ls0 <= ls && forall i :: |ls0| <= i < |ls| ==> ls[i].LPing?
        decreases rest
      {
        var c :| c in rest;
        DueWithout(rest, note.room, c);
        if clients[c] != note.room {
          ghost var l := SendPing(c, note, w, s, Due(rest, note.room)) by {
            DueHas(rest, note.room, c);
          }
          ReachesSnoc(w, st, ls, s, l);
          ls, s := ls + [l], Apply(w, s, l);
        }
        rest := rest - {c};
      }
    }

    lemma DueHas(rest: set<Connection>, room: Name, c: Connection)
      requires rest <= clients.Keys && c in rest && clients[c] != room
      ensures id(c) in Due(rest, room)
    {
    }

    /** One ping, as one step. */
    method SendPing(c: Connection, note: Note, ghost w: Hub, ghost s: State, ghost due: set<Cid>)
      returns (ghost l: Label)
      requires Valid() && c in clients && IsPinging(w, s, note, due) && id(c) in due
      modifies c
      ensures Valid() && l.LPing? && Guard(w, s, l) && IsPinging(w, Apply(w, s, l), note, due - {id(c)})
      ensures RoomActor.Sent(c.buffer, old(c.Value()), c.Value(), Activity(note))
    {
      hide Guard, Apply, Records, Stands, Pinged;
      ghost var q := c.Value();
      RoomActor.SendOne(c, Activity(note));
      ghost var drop := c.Value() == C.Send(c.buffer, q, Activity(note), true);
      l := LPing(id(c), drop);
      PingedIs(View(), due, note, id(c));
      PingStands(w, s, id, Pinged(View(), due, note), stopped, old(Queues()), c, drop);
      assert Queues() == old(Queues())[c := C.Send(c.buffer, q, Activity(note), drop)];
    }

    // ---- The sweep -------------------------------------------------------

    /** A sweep keeps this room: somebody is in it or joining it, or it was used
        too recently; or sweeping is off. */
    ghost predicate Kept(n: Name, now: int)
      reads this
    {
      idleTimeout <= 0 || OccupiedBy(n) || now - (if n in lastUse then lastUse[n] else 0) < idleTimeout
    }

    /** Evicts exactly the rooms nobody is in that have been idle long enough: a
        run of that many sweep steps. */
    method Sweep(now: int, ghost w: Hub, ghost st: State) returns (ghost names: seq<Name>)
      requires Valid() && !stopping && Is(w, st)
      modifies this`rooms, this`lastUse, this`stopped
      ensures Valid() && Reaches(w, st, Sweeps(names), Swept(st, names)) && Is(w, Swept(st, names))
      ensures forall n :: n in names <==> n in old(rooms) && !old(Kept(n, now))
      ensures lastUse == old(lastUse) - Names(names)
    {
      hide Reaches, Swept, Sweeps, Stands, Records, View, Queues;
      names := [];
      if idleTimeout <= 0 {
        SweptNone(st);
        ReachesNone(w, st);
        return;
      }
      hide Kept;
      IdleUnoccupied(w, st, now);
      var occupied := Occupancy();
      names := EvictIdle(now, occupied);
      assert Valid() && View() == old(View()).(table := rooms) && Queues() == old(Queues()) by {
        SameFields();
      }
      IdleSweepable(st, names);
      SweepIsSteps(w, st, names);
      SweptStands(st, id, old(View()), old(stopped), old(Queues()), names, stopped);
    }

    /** With the same clients, the view differs in the table alone. */
    twostate lemma SameFields()
      requires old(Valid()) && NOWHERE !in rooms && clients == old(clients) && activity == old(activity)
      requires running == old(running) && stopping == old(stopping)
      requires forall c :: c in clients ==> unchanged(c)
      ensures Valid() && View() == old(View()).(table := rooms) && Queues() == old(Queues())
    {
      hide Records;
    }

    lemma IdleUnoccupied(w: Hub, st: State, now: int)
      requires Valid() && !stopping && Is(w, st)
      ensures st.reg == View() && st.reg.mode.Receiving? && st.reg.table == rooms
      ensures forall n :: n in rooms && !Kept(n, now) ==> CanSweep(st, n)
    {
      forall n | n in rooms ensures OccupiedBy(n) <==> Occupied(st.reg, n) {
        OccupiedIs(n);
      }
      hide Occupied, OccupiedBy, Records, Queues;
    }

    /** The sweep's loop. */
    method EvictIdle(now: int, occupied: set<Name>) returns (ghost names: seq<Name>)
      requires idleTimeout > 0 && forall n :: n in occupied <==> OccupiedBy(n)
      modifies this`rooms, this`lastUse, this`stopped
      ensures rooms == old(rooms) - Names(names) && lastUse == old(lastUse) - Names(names)
      ensures forall n :: n in names <==> n in old(rooms) && !old(Kept(n, now))
      ensures forall i, j :: 0 <= i < j < |names| ==> names[i] != names[j]
      ensures stopped == old(stopped) + set n | n in names && n in old(rooms) :: old(rooms)[n]
    {
      names := [];
      ghost var rooms0 := rooms;
      var rest := rooms.Keys;
      while rest != {}
        invariant rest <= rooms.Keys && rooms == rooms0 - Names(names)
        invariant lastUse == old(lastUse) - Names(names)
        invariant forall n :: n in names <==> n in rooms0 && n !in rest && !old(Kept(n, now))
        invariant forall i, j :: 0 <= i < j < |names| ==> names[i] != names[j]
        invariant stopped == old(stopped) + set n | n in names && n in rooms0 :: rooms0[n]
        decreases rest
      {
        var n :| n in rest;
        var last := if n in lastUse then lastUse[n] else 0;
        if n !in occupied && now - last >= idleTimeout {
          stopped := stopped + {rooms[n]};
          rooms := rooms - {n};
          lastUse := lastUse - {n};
          names := names + [n];
        }
        rest := rest - {n};
      }
    }

    /** The names some client is recorded in. */
    method Occupancy() returns (occupied: set<Name>)
      requires Valid()
      ensures forall n :: n in occupied <==> OccupiedBy(n)
    {
      occupied := {};
      var rest := clients.Keys;
      while rest != {}
        invariant rest <= clients.Keys
        invariant forall n :: n in occupied <==>
          n != NOWHERE && exists c :: c in clients && c !in rest && clients[c] == n
        decreases rest
      {
        var c :| c in rest;
        if clients[c] != NOWHERE {
          occupied := occupied + {clients[c]};
        }
        rest := rest - {c};
      }
    }

    // ---- Shutdown --------------------------------------------------------

    /** The start of shutdown: every room in the table is told to stop, and every
        client is killed, keeping the code of an earlier kill; from here on the
        registry only drains. */
    method Shutdown(ghost w: Hub, ghost st: State)
      requires Valid() && !stopping && Is(w, st)
      modifies this`stopping, this`stopped, clients.Keys
      ensures Valid() && stopping && Is(w, HubModel.Shutdown(st))
      ensures forall c :: c in clients ==> c.Value() == C.Kill(old(c.Value()), C.CLOSE_SERVER_ERROR)
    {
      hide HubModel.Shutdown, Records, C.Kill, Stands, Distinct, AllKilled, View, Queues;
      ShutdownTie(w, st);
      StopAll();
      KillAll();
    }

    lemma ShutdownTie(w: Hub, st: State)
      requires Valid() && !stopping && Is(w, st)
      ensures Buffered(w)
      ensures Stands(
        HubModel.Shutdown(st), id, View().(mode := Winding), stopped + rooms.Values, AllKilled(Queues()))
    {
      assert forall c :: c in clients ==> id(c) in View().clients;
      hide HubModel.Shutdown, Records, C.Kill, Stands, AllKilled;
      ShutdownStands(st, id, View(), stopped, Queues());
    }

    method StopAll()
      requires Valid()
      modifies this`stopping, this`stopped
      ensures Valid() && stopping && stopped == old(stopped) + rooms.Values
      ensures View() == old(View()).(mode := Winding) && Queues() == old(Queues())
    {
      stopping := true;
      var names := rooms.Keys;
      while names != {}
        invariant names <= rooms.Keys && stopping
        invariant stopped == old(stopped) + set n | n in rooms && n !in names :: rooms[n]
        decreases names
      {
        var n :| n in names;
        stopped := stopped + {rooms[n]};
        names := names - {n};
      }
      assert (set n | n in rooms :: rooms[n]) == rooms.Values;
    }

    method KillAll()
      requires Valid()
      modifies clients.Keys
      ensures Valid() && View() == old(View()) && Queues() == AllKilled(old(Queues()))
      ensures forall c :: c in clients ==> c.Value() == C.Kill(old(c.Value()), C.CLOSE_SERVER_ERROR)
    {
      hide C.Kill;
      var rest := clients.Keys;
      while rest != {}
        invariant rest <= clients.Keys && Valid()
        invariant forall c :: c in rest ==> c.Value() == old(c.Value())
        invariant forall c :: c in clients && c !in rest ==> c.Value() == C.Kill(old(c.Value()), C.CLOSE_SERVER_ERROR)
        decreases rest
      {
        var c :| c in rest;
        c.KillWith(C.CLOSE_SERVER_ERROR);
        rest := rest - {c};
      }
      AllKilledIs(old(Queues()), Queues());
    }
  }

  lemma SameElsewhere(a: HubModel.Registry, b: HubModel.Registry, n: Name)
    requires a.clients == b.clients
    ensures Elsewhere(a, n) == Elsewhere(b, n)
  {
  }

  // ---- The sweep as steps of the transition system ---------------------

  function Sweeps(names: seq<Name>): seq<Label> {
    if names == [] then [] else [LSweep(names[0])] + Sweeps(names[1..])
  }

  function Names(names: seq<Name>): set<Name> { set n | n in names }

  /** A room of the table that no client is recorded in. */
  predicate CanSweep(st: State, n: Name) {
    n in st.reg.table && st.reg.table[n] in st.rooms && !Occupied(st.reg, n)
  }

  lemma IdleSweepable(st: State, names: seq<Name>)
    requires forall n :: n in names ==> CanSweep(st, n)
    requires forall i, j :: 0 <= i < j < |names| ==> names[i] != names[j]
    ensures Sweepable(st, names)
  {
    hide CanSweep;
  }

  /** Distinct such rooms. */
  ghost predicate Sweepable(st: State, names: seq<Name>) {
    && (forall i :: 0 <= i < |names| ==> CanSweep(st, names[i]))
    && (forall i, j :: 0 <= i < j < |names| ==> names[i] != names[j])
  }

  /** Some of these names is instance r's. */
  predicate Stops(table: map<Name, Rid>, names: seq<Name>, r: Rid) {
    exists i :: 0 <= i < |names| && names[i] in table && table[names[i]] == r
  }

  /** The names are out of the table and their rooms have the stop token; nothing
      else changed. */
  function Swept(st: State, names: seq<Name>): State {
    st.(
      rooms := map r | r in st.rooms ::
        if Stops(st.reg.table, names, r) then st.rooms[r].(stop := true) else st.rooms[r],
      reg := st.reg.(table := st.reg.table - Names(names)))
  }

  /** One step of the pass. */
  lemma SweepStep(w: Hub, st: State, names: seq<Name>)
    requires st.reg.mode.Receiving? && Sweepable(st, names) && names != []
    ensures var l, st' := LSweep(names[0]), SweepOne(st, names[0]);
      Guard(w, st, l) && Apply(w, st, l) == st' && Sweepable(st', names[1..])
      && st'.reg == st.reg.(table := st.reg.table - {names[0]})
  {
  }

  lemma SweptHead(st: State, names: seq<Name>)
    requires Sweepable(st, names) && names != []
    ensures Swept(SweepOne(st, names[0]), names[1..]) == Swept(st, names)
  {
    var st', rest := SweepOne(st, names[0]), names[1..];
    assert names == [names[0]] + rest;
    assert st'.reg.table - Names(rest) == st.reg.table - Names(names);
    forall r ensures Stops(st.reg.table, names, r) <==> r == st.reg.table[names[0]] || Stops(st'.reg.table, rest, r) {
      if Stops(st'.reg.table, rest, r) {
        var i :| 0 <= i < |rest| && rest[i] in st'.reg.table && st'.reg.table[rest[i]] == r;
        assert names[i + 1] == rest[i];
      }
      if Stops(st.reg.table, names, r) && r != st.reg.table[names[0]] {
        var i :| 0 <= i < |names| && names[i] in st.reg.table && st.reg.table[names[i]] == r;
        assert rest[i - 1] == names[i] && names[i] != names[0];
      }
    }
    hide Stops;
    assert Swept(st', rest).rooms == Swept(st, names).rooms;
  }

  /** One pass of the sweep over any unoccupied rooms is that many steps of the
      transition system: it takes exactly those names out of the table, gives
      exactly their rooms the stop token, and changes nothing else. */
  lemma {:induction false} SweepIsSteps(w: Hub, st: State, names: seq<Name>)
    requires st.reg.mode.Receiving? && Sweepable(st, names)
    ensures Reaches(w, st, Sweeps(names), Swept(st, names))
    decreases |names|
  {
    if names == [] {
      SweptNone(st);
    } else {
      SweepStep(w, st, names);
      SweptHead(st, names);
      SweepsHead(names);
      hide Guard, Apply, Sweepable, SweepOne, Swept, Sweeps;
      SweepIsSteps(w, SweepOne(st, names[0]), names[1..]);
    }
  }

  lemma SweptStands(
      st: State, id: Connection -> Cid, reg: HubModel.Registry, was: set<Rid>, qs: map<Connection, C.Queue<Out>>,
      names: seq<Name>, stopped: set<Rid>)
    requires Stands(st, id, reg, was, qs) && Sweepable(st, names)
    requires stopped == was + set n | n in names && n in reg.table :: reg.table[n]
    ensures Stands(Swept(st, names), id, reg.(table := reg.table - Names(names)), stopped, qs)
  {
    forall r ensures Stops(reg.table, names, r) <==> exists n :: n in names && n in reg.table && reg.table[n] == r {
      if n :| n in names && n in reg.table && reg.table[n] == r {
        var i :| 0 <= i < |names| && names[i] == n;
      }
    }
    hide Stops;
  }

  lemma WithJoinIs(reg: HubModel.Registry, x: Cid, n: Name, rid: Rid)
    ensures var reg' := WithJoin(reg, x, n, rid); var made := n !in reg.table;
      && reg'.mode == reg.mode && reg'.notes == reg.notes && reg'.clients == reg.clients[x := Some(n)]
      && reg'.table == (if made then reg.table[n := rid] else reg.table)
      && reg'.waiting == (if made then reg.waiting + 1 else reg.waiting)
  {
  }

  lemma ReachesNone(w: Hub, st: State)
    ensures Reaches(w, st, Sweeps([]), st)
  {
  }

  lemma SweptNone(st: State)
    ensures Swept(st, []) == st
  {
    assert Swept(st, []).rooms == st.rooms;
    assert st.reg.table - Names([]) == st.reg.table;
  }

  lemma SweepsHead(names: seq<Name>)
    requires names != []
    ensures Sweeps(names) != [] && Sweeps(names)[0] == LSweep(names[0]) && Sweeps(names)[1..] == Sweeps(names[1..])
  {
  }
}
