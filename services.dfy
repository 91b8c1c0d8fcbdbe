/** The service life cycle of one Machinekit instance, as values.
    `Conn` is the state `_updateServicesLocked` works on: the category to
    service map, the reverse index from socket to service, the registrations
    of the shared poller, the number of sockets the shared context has opened
    (a socket is named by its opening number, so a new one is always fresh)
    and the log of notifications. `Step` is one pass of the loop body for one
    category, `Reconcile` the whole loop. */
module Services {
  import opened Util
  import opened JobSync

  type Socket = nat

  /** The service classes of `_MKServiceRegister`. */
  datatype Kind = CommandKind | ErrorKind | HalCommandKind | HalStatusKind | StatusKind

  /** `_MKServiceRegister`, in its declaration order. */
  const Register: seq<(string, Option<Kind>)> := [
    ("command", Some(CommandKind)),
    ("error", Some(ErrorKind)),
    ("halrcmd", Some(HalCommandKind)),
    ("halrcomp", Some(HalStatusKind)),
    ("status", Some(StatusKind)),
    ("", None)
  ]

  function LookupClass(reg: seq<(string, Option<Kind>)>, s: string): Option<Kind> {
    if reg == [] then None
    else if reg[0].0 == s then reg[0].1
    else LookupClass(reg[1..], s)
  }

  /** `_MKServiceRegister.get(s)` */
  function ClassFor(s: string): Option<Kind> {
    LookupClass(Register, s)
  }

  /** The register's names that are not empty, in order (the constructor's
      `for service in _MKServiceRegister: if service: ...`). */
  function NamedKeys(reg: seq<(string, Option<Kind>)>): (r: seq<string>)
    ensures forall k :: 0 <= k < |r| ==> r[k] != ""
    ensures forall s :: s in r <==> s != "" && exists e :: e in reg && e.0 == s
  {
    if reg == [] then []
    else (if reg[0].0 != "" then [reg[0].0] else []) + NamedKeys(reg[1..])
  }

  /** The names keep the register's order: those of earlier entries come
      first. */
  lemma {:induction false} NamedKeysAppend(a: seq<(string, Option<Kind>)>, b: seq<(string, Option<Kind>)>)
    ensures NamedKeys(a + b) == NamedKeys(a) + NamedKeys(b)
  {
    if a == [] {
      assert a + b == b;
    } else {
      assert (a + b)[1..] == a[1..] + b;
      NamedKeysAppend(a[1..], b);
    }
  }

  /** The categories an instance reconciles, in iteration order. */
  const Categories: seq<string> := ["command", "error", "halrcmd", "halrcomp", "status"]

  /** Only the five named register entries are reconciled, in the register's
      order: the empty name is skipped and `file` has no entry. */
  lemma CategoriesOfRegister()
    ensures Categories == NamedKeys(Register)
    ensures "" !in Categories && "file" !in Categories
    ensures ClassFor("") == None && ClassFor("file") == None
  {
    assert NamedKeys(Register[5..]) == [];
    assert NamedKeys(Register[4..]) == ["status"];
    assert NamedKeys(Register[3..]) == ["halrcomp", "status"];
    assert NamedKeys(Register[2..]) == ["halrcmd", "halrcomp", "status"];
    assert NamedKeys(Register[1..]) == ["error", "halrcmd", "halrcomp", "status"];
  }

  /** Each category has a class in the register. */
  lemma CategoryClasses()
    ensures ClassFor("command") == Some(CommandKind) && ClassFor("error") == Some(ErrorKind)
    ensures ClassFor("halrcmd") == Some(HalCommandKind) && ClassFor("halrcomp") == Some(HalStatusKind)
    ensures ClassFor("status") == Some(StatusKind)
  {
    assert "error"[0] != "command"[0];
    assert "halrcmd"[0] != "command"[0] && "halrcmd"[0] != "error"[0];
    assert "halrcomp"[0] != "command"[0] && "halrcomp"[0] != "error"[0] && "halrcomp"[5] != "halrcmd"[5];
    assert "status"[0] != "command"[0] && "status"[0] != "error"[0] && "status"[0] != "halrcmd"[0] && "status"[0] != "halrcomp"[0];
  }

  /** What the lemmas about a pass over the categories need of them. */
  lemma CategoryFacts()
    ensures Distinct(Categories) && "status" in Categories && "command" in Categories
    ensures "halrcmd" in Categories && "halrcomp" in Categories
    ensures forall k :: k in Categories ==> k != "" && ClassFor(k).Some?
  {
    CategoryClasses();
    var cs := Categories;
    assert cs[0][0] == 'c' && cs[1][0] == 'e' && cs[2][0] == 'h' && cs[3][0] == 'h' && cs[4][0] == 's';
    assert cs[2][5] == 'm' && cs[3][5] == 'o';
    assert forall k :: k in cs ==> k == cs[0] || k == cs[1] || k == cs[2] || k == cs[3] || k == cs[4];
  }

  /** A connected service: its class, the connection signature (`dsn`) of
      the endpoint it was created for, and its socket. */
  datatype Service = Service(kind: Kind, dsn: string, socket: Socket)

  /** An advertised endpoint of the instance directory. */
  datatype Endpoint = Endpoint(dsn: string, address: string, port: int)

  /** The notifications and calls the Machinekit object makes, in order. */
  datatype Event =
    | ServiceAttached(category: string, socket: Socket)   // service.attach(self)
    | ServiceDetached(category: string, socket: Socket)   // service.detach(self)
    | StatusGone(topic: string)                            // statusUpdate.emit(service[tn], None)
    | Unsupported(category: string)                        // "service ... not supported"
    | Pinged(category: string)                             // service.ping()
    | JobChanged(job: Option<Job>)                         // jobUpdate.emit(job)

  datatype Conn = Conn(
    service: map<string, Option<Service>>,
    index: map<Socket, Service>,
    registered: set<Socket>,
    openCount: nat,
    events: seq<Event>)

  predicate Live(m: map<string, Option<Service>>, s: string) {
    s in m && m[s].Some?
  }

  /** The sockets of the live services. */
  function LiveSockets(m: map<string, Option<Service>>): set<Socket> {
    set s | s in m && m[s].Some? :: m[s].value.socket
  }

  ghost predicate DistinctSockets(m: map<string, Option<Service>>) {
    forall s, t :: s in m && t in m && s != t && m[s].Some? && m[t].Some? ==>
      m[s].value.socket != m[t].value.socket
  }

  ghost predicate Indexed(c: Conn, s: string)
    requires Live(c.service, s)
  {
    var v := c.service[s].value;
    v.socket in c.registered && v.socket in c.index && c.index[v.socket] == v
  }

  /** The invariant of the connection state: every live service's socket is
      registered with the poller and indexed back to that service, the index
      holds the live services' sockets and nothing else, no two services
      share a socket, and every registered socket was opened already. */
  ghost predicate Valid(c: Conn) {
    && (forall k :: k in c.registered ==> k < c.openCount)
    && c.index.Keys == LiveSockets(c.service)
    && (forall s :: Live(c.service, s) ==> Indexed(c, s))
    && DistinctSockets(c.service)
  }

  /** The registrations that belong to no service of this instance. */
  function Others(c: Conn): set<Socket> {
    c.registered - LiveSockets(c.service)
  }

  /** A fresh instance: every category known and empty. */
  function Initial(registered: set<Socket>, openCount: nat): Conn {
    Conn(map s | s in Categories :: None, map[], registered, openCount, [])
  }

  lemma InitialValid(registered: set<Socket>, openCount: nat)
    requires forall k :: k in registered ==> k < openCount
    ensures Valid(Initial(registered, openCount))
    ensures LiveSockets(Initial(registered, openCount).service) == {}
  {
    var c := Initial(registered, openCount);
    assert forall s :: s in c.service ==> c.service[s].None?;
    assert LiveSockets(c.service) == {};
  }

  /** `removeService(s, service)` */
  function RemoveService(c: Conn, s: string, svc: Option<Service>): (r: Conn)
    requires s in c.service
    ensures r.service.Keys == c.service.Keys
  {
    if s != "" && svc.Some? then
      var sock := svc.value.socket;
      c.(registered := c.registered - {sock},
         index := c.index - {sock},
         service := c.service[s := None],
         events := c.events + [ServiceDetached(s, sock)])
    else c
  }

  /** Creating, indexing, attaching and registering a service of class `k`
      for endpoint `ep` on a newly opened socket. */
  function Attach(c: Conn, s: string, k: Kind, ep: Endpoint): (r: Conn)
    requires s in c.service
    ensures r.service.Keys == c.service.Keys
  {
    var v := Service(k, ep.dsn, c.openCount);
    c.(openCount := c.openCount + 1,
       index := c.index[v.socket := v],
       service := c.service[s := Some(v)],
       events := c.events + [ServiceAttached(s, v.socket)],
       registered := c.registered + {v.socket})
  }

  /** One `statusUpdate(topic, None)` per tracked topic name. */
  function GoneEvents(topics: seq<string>): (r: seq<Event>)
    ensures |r| == |topics|
    ensures forall k :: 0 <= k < |r| ==> r[k] == StatusGone(topics[k])
  {
    if topics == [] then []
    else GoneEvents(topics[..|topics| - 1]) + [StatusGone(topics[|topics| - 1])]
  }

  /** A category whose endpoint went away loses its service; losing the
      status service also clears every topic it tracked. */
  function Vanish(c: Conn, s: string, svc: Option<Service>, topics: seq<string>): (r: Conn)
    requires s in c.service
    ensures r.service.Keys == c.service.Keys
  {
    var c1 := RemoveService(c, s, svc);
    if s == "status" then c1.(events := c1.events + GoneEvents(topics)) else c1
  }

  /** A category without a service meets its endpoint: a service of the
      registered class is attached, or the category is reported as
      unsupported; the flag says whether a service now exists. */
  function Connect(c: Conn, s: string, ep: Endpoint): (r: (Conn, bool))
    requires s in c.service
    ensures r.0.service.Keys == c.service.Keys
  {
    match ClassFor(s)
    case None => (c.(events := c.events + [Unsupported(s)]), false)
    case Some(k) => (Attach(c, s, k, ep), true)
  }

  /** The loop body of `_updateServicesLocked` for category `s`, with the
      value it gives `poll` (true when it kept or created a service).
      `topics` are the topic names the status service reports. */
  function Step(c: Conn, s: string, eps: map<string, Endpoint>, topics: seq<string>): (r: (Conn, bool))
    requires s in c.service
    ensures r.0.service.Keys == c.service.Keys
  {
    var svc := c.service[s];
    if s !in eps then
      if svc.Some? then (Vanish(c, s, svc, topics), false) else (c, false)
    else
      var stale := svc.Some? && eps[s].dsn != svc.value.dsn;
      var c1 := if stale then RemoveService(c, s, svc) else c;
      var svc1 := if stale then None else svc;
      if svc1.None? then Connect(c1, s, eps[s]) else (c1, true)
  }

  /** The whole pass over `keys`, with its return value. */
  function Reconcile(c: Conn, keys: seq<string>, eps: map<string, Endpoint>, topics: seq<string>): (r: (Conn, bool))
    requires forall k :: k in keys ==> k in c.service
    ensures r.0.service.Keys == c.service.Keys
    decreases |keys|
  {
    if keys == [] then (c, false)
    else
      var (c1, p1) := Step(c, keys[0], eps, topics);
      var (c2, p2) := Reconcile(c1, keys[1..], eps, topics);
      (c2, p1 || p2)
  }

  lemma LiveRemove(m: map<string, Option<Service>>, s: string)
    requires Live(m, s) && DistinctSockets(m)
    ensures LiveSockets(m[s := None]) == LiveSockets(m) - {m[s].value.socket}
    ensures DistinctSockets(m[s := None])
  {
    var m' := m[s := None];
    forall k | k in LiveSockets(m) - {m[s].value.socket} ensures k in LiveSockets(m') {
      var t :| t in m && m[t].Some? && m[t].value.socket == k;
      assert t != s;
      assert m'[t] == m[t];
    }
  }

  lemma LiveAdd(m: map<string, Option<Service>>, s: string, v: Service)
    requires s in m && m[s].None?
    ensures LiveSockets(m[s := Some(v)]) == LiveSockets(m) + {v.socket}
  {
    var m' := m[s := Some(v)];
    forall k | k in LiveSockets(m) ensures k in LiveSockets(m') {
      var t :| t in m && m[t].Some? && m[t].value.socket == k;
      assert m'[t] == m[t];
    }
    assert m'[s] == Some(v);
  }

  /** `removeService` on a valid state: the service's socket leaves the poller
      and the index, its category becomes empty, no other category changes
      and the state stays valid. */
  lemma {:induction false} RemoveServiceValid(c: Conn, s: string)
    requires Valid(c) && s != "" && Live(c.service, s)
    ensures var r := RemoveService(c, s, c.service[s]);
      var sock := c.service[s].value.socket;
      && Valid(r)
      && r.service[s] == None
      && (forall t :: t in c.service && t != s ==> r.service[t] == c.service[t])
      && sock !in r.registered && sock !in r.index
      && LiveSockets(r.service) == LiveSockets(c.service) - {sock}
      && Others(r) == Others(c)
      && r.openCount == c.openCount
      && r.events == c.events + [ServiceDetached(s, sock)]
  {
    var r := RemoveService(c, s, c.service[s]);
    var sock := c.service[s].value.socket;
    LiveRemove(c.service, s);
    forall t | Live(r.service, t) ensures Indexed(r, t) {
      assert t != s && r.service[t] == c.service[t];
      assert Indexed(c, t);
    }
  }

  /** Creating a service for an empty category keeps the state valid; the new
      socket was never registered before. */
  lemma {:induction false} AttachValid(c: Conn, s: string, k: Kind, ep: Endpoint)
    requires Valid(c) && s in c.service && c.service[s].None?
    ensures var r := Attach(c, s, k, ep);
      && Valid(r)
      && c.openCount !in c.registered
      && r.service[s] == Some(Service(k, ep.dsn, c.openCount))
      && (forall t :: t in c.service && t != s ==> r.service[t] == c.service[t])
      && LiveSockets(r.service) == LiveSockets(c.service) + {c.openCount}
      && Others(r) == Others(c)
  {
    var r := Attach(c, s, k, ep);
    var v := Service(k, ep.dsn, c.openCount);
    LiveAdd(c.service, s, v);
    forall t | Live(c.service, t) ensures c.service[t].value.socket != c.openCount {
      assert Indexed(c, t);
    }
    forall t | Live(r.service, t) ensures Indexed(r, t) {
      if t != s {
        assert Indexed(c, t);
      }
    }
  }

  /** One step keeps the invariant and the registrations of others, decides
      category `s` alone, and returns true exactly when `s` has a service. */
  lemma {:induction false} StepSpec(c: Conn, s: string, eps: map<string, Endpoint>, topics: seq<string>)
    requires Valid(c) && s in c.service && s != ""
    requires Live(c.service, s) ==> ClassFor(s).Some?
    ensures var r := Step(c, s, eps, topics);
      && Valid(r.0)
      && Others(r.0) == Others(c)
      && r.0.openCount >= c.openCount
      && (Live(r.0.service, s) <==> s in eps && ClassFor(s).Some?)
      && (Live(r.0.service, s) ==> r.0.service[s].value.dsn == eps[s].dsn)
      && (r.1 <==> Live(r.0.service, s))
      && (forall t :: t in c.service && t != s ==> r.0.service[t] == c.service[t])
      && (Live(c.service, s) && s in eps && eps[s].dsn == c.service[s].value.dsn ==>
            r.0.service[s] == c.service[s])
      && (Live(r.0.service, s) && r.0.service[s] != c.service[s] ==>
            r.0.service[s].value.socket >= c.openCount)
  {
    var svc := c.service[s];
    if svc.Some? {
      RemoveServiceValid(c, s);
      var c1 := RemoveService(c, s, svc);
      if s in eps && ClassFor(s).Some? {
        AttachValid(c1, s, ClassFor(s).value, eps[s]);
      }
    } else if s in eps && ClassFor(s).Some? {
      AttachValid(c, s, ClassFor(s).value, eps[s]);
    }
  }

  /** A pass keeps the invariant and the registrations of others, opens
      sockets only, and leaves the categories outside the pass untouched. */
  lemma {:induction false} ReconcileFrame(c: Conn, keys: seq<string>, eps: map<string, Endpoint>, topics: seq<string>)
    requires Valid(c)
    requires forall k :: k in keys ==> k in c.service && k != "" && (Live(c.service, k) ==> ClassFor(k).Some?)
    ensures var r := Reconcile(c, keys, eps, topics).0;
      && Valid(r)
      && Others(r) == Others(c)
      && r.openCount >= c.openCount
      && (forall s :: s in c.service && s !in keys ==> r.service[s] == c.service[s])
    decreases |keys|
  {
    if keys != [] {
      StepSpec(c, keys[0], eps, topics);
      var c1 := Step(c, keys[0], eps, topics).0;
      assert forall k :: k in keys[1..] ==> k in keys;
      ReconcileFrame(c1, keys[1..], eps, topics);
    }
  }

  /** What a pass over distinct categories decides for each of them: a
      service exactly when an endpoint is advertised and the register has a
      class, then one for that endpoint's signature. */
  lemma {:induction false} ReconcileLive(c: Conn, keys: seq<string>, eps: map<string, Endpoint>, topics: seq<string>)
    requires Valid(c) && Distinct(keys)
    requires forall k :: k in keys ==> k in c.service && k != "" && (Live(c.service, k) ==> ClassFor(k).Some?)
    ensures var r := Reconcile(c, keys, eps, topics).0;
      && (forall s :: s in keys ==> (Live(r.service, s) <==> s in eps && ClassFor(s).Some?))
      && (forall s :: s in keys && Live(r.service, s) ==> r.service[s].value.dsn == eps[s].dsn)
    decreases |keys|
  {
    if keys != [] {
      var s := keys[0];
      StepSpec(c, s, eps, topics);
      var c1 := Step(c, s, eps, topics).0;
      assert forall k :: k in keys[1..] ==> k in keys && k != s;
      ReconcileFrame(c1, keys[1..], eps, topics);
      ReconcileLive(c1, keys[1..], eps, topics);
    }
  }

  /** A service whose endpoint kept its signature is kept by the pass. */
  lemma {:induction false} ReconcileKeeps(c: Conn, keys: seq<string>, eps: map<string, Endpoint>, topics: seq<string>)
    requires Valid(c) && Distinct(keys)
    requires forall k :: k in keys ==> k in c.service && k != "" && (Live(c.service, k) ==> ClassFor(k).Some?)
    ensures var r := Reconcile(c, keys, eps, topics).0;
      forall s :: s in keys && Live(c.service, s) && s in eps && eps[s].dsn == c.service[s].value.dsn ==>
        r.service[s] == c.service[s]
    decreases |keys|
  {
    if keys != [] {
      var s := keys[0];
      StepSpec(c, s, eps, topics);
      var c1 := Step(c, s, eps, topics).0;
      assert forall k :: k in keys[1..] ==> k in keys && k != s;
      var rest := keys[1..];
      ReconcileFrame(c1, rest, eps, topics);
      ReconcileKeeps(c1, rest, eps, topics);
      var r := Reconcile(c1, rest, eps, topics).0;
      assert Reconcile(c, keys, eps, topics).0 == r;
      forall t | t in keys && Live(c.service, t) && t in eps && eps[t].dsn == c.service[t].value.dsn
        ensures r.service[t] == c.service[t]
      {
        if t == s {
          assert r.service[t] == c1.service[t];
        } else {
          assert t in rest && c1.service[t] == c.service[t];
        }
      }
    }
  }

  /** Every service after the pass that was not there before it is on a
      socket opened during the pass. */
  lemma {:induction false} ReconcileFresh(c: Conn, keys: seq<string>, eps: map<string, Endpoint>, topics: seq<string>)
    requires Valid(c) && Distinct(keys)
    requires forall k :: k in keys ==> k in c.service && k != "" && (Live(c.service, k) ==> ClassFor(k).Some?)
    ensures var r := Reconcile(c, keys, eps, topics).0;
      forall s :: s in keys && Live(r.service, s) && r.service[s] != c.service[s] ==>
        r.service[s].value.socket >= c.openCount
    decreases |keys|
  {
    if keys != [] {
      var s := keys[0];
      StepSpec(c, s, eps, topics);
      var c1 := Step(c, s, eps, topics).0;
      var rest := keys[1..];
      assert forall k :: k in rest ==> k in keys && k != s;
      ReconcileFrame(c1, rest, eps, topics);
      ReconcileFresh(c1, rest, eps, topics);
      var r := Reconcile(c1, rest, eps, topics).0;
      assert Reconcile(c, keys, eps, topics).0 == r;
      forall t | t in keys && Live(r.service, t) && r.service[t] != c.service[t]
        ensures r.service[t].value.socket >= c.openCount
      {
        if t == s {
          assert r.service[t] == c1.service[t];
        } else {
          assert t in rest && c1.service[t] == c.service[t];
        }
      }
    }
  }

  /** The pass returns true exactly when some category of the pass has a
      service after it. */
  lemma {:induction false} ReconcilePoll(c: Conn, keys: seq<string>, eps: map<string, Endpoint>, topics: seq<string>)
    requires Valid(c) && Distinct(keys)
    requires forall k :: k in keys ==> k in c.service && k != "" && (Live(c.service, k) ==> ClassFor(k).Some?)
    ensures var r := Reconcile(c, keys, eps, topics);
      r.1 <==> exists s :: s in keys && Live(r.0.service, s)
    decreases |keys|
  {
    if keys != [] {
      var s := keys[0];
      StepSpec(c, s, eps, topics);
      var c1 := Step(c, s, eps, topics).0;
      assert forall k :: k in keys[1..] ==> k in keys && k != s;
      ReconcileFrame(c1, keys[1..], eps, topics);
      ReconcilePoll(c1, keys[1..], eps, topics);
      assert Reconcile(c, keys, eps, topics).0 == Reconcile(c1, keys[1..], eps, topics).0;
    }
  }

  /** After a whole pass over distinct categories: the state is valid, the
      pass decides every category of it, categories
      outside the pass are untouched, and the registrations of the poller are
      those that are not this instance's plus exactly the sockets of the
      live services, which are also exactly the keys of the index. */
  lemma {:induction false} ReconcileSpec(c: Conn, keys: seq<string>, eps: map<string, Endpoint>, topics: seq<string>)
    requires Valid(c) && Distinct(keys)
    requires forall k :: k in keys ==> k in c.service && k != "" && (Live(c.service, k) ==> ClassFor(k).Some?)
    ensures var r := Reconcile(c, keys, eps, topics);
      && Valid(r.0)
      && r.0.openCount >= c.openCount
      && (forall s :: s in keys ==> (Live(r.0.service, s) <==> s in eps && ClassFor(s).Some?))
      && (forall s :: s in keys && Live(r.0.service, s) ==> r.0.service[s].value.dsn == eps[s].dsn)
      && (forall s :: s in c.service && s !in keys ==> r.0.service[s] == c.service[s])
      && (forall s :: s in keys && Live(c.service, s) && s in eps && eps[s].dsn == c.service[s].value.dsn ==>
            r.0.service[s] == c.service[s])
      && (forall s :: s in keys && Live(r.0.service, s) && r.0.service[s] != c.service[s] ==>
            r.0.service[s].value.socket >= c.openCount)
      && r.0.registered == Others(c) + LiveSockets(r.0.service)
      && r.0.index.Keys == LiveSockets(r.0.service)
      && (r.1 <==> exists s :: s in keys && Live(r.0.service, s))
  {
    ReconcileFrame(c, keys, eps, topics);
    ReconcileLive(c, keys, eps, topics);
    ReconcileKeeps(c, keys, eps, topics);
    ReconcileFresh(c, keys, eps, topics);
    ReconcilePoll(c, keys, eps, topics);
    var r := Reconcile(c, keys, eps, topics).0;
    RegisteredOfValid(r);
  }

  /** In a valid state the poller holds the sockets of the live services
      besides the registrations of others. */
  lemma RegisteredOfValid(c: Conn)
    requires Valid(c)
    ensures c.registered == Others(c) + LiveSockets(c.service)
  {
    forall k | k in LiveSockets(c.service) ensures k in c.registered {
      var t :| t in c.service && c.service[t].Some? && c.service[t].value.socket == k;
      assert Indexed(c, t);
    }
  }

  /** A service whose endpoint was re-bound to a different signature is
      removed before its replacement is created: its socket leaves the poller
      and the index, the replacement gets a socket never registered before,
      and the log reads detach, then attach. */
  lemma {:induction false} StaleReplaced(c: Conn, s: string, eps: map<string, Endpoint>, topics: seq<string>)
    requires Valid(c) && s != "" && Live(c.service, s)
    requires s in eps && eps[s].dsn != c.service[s].value.dsn && ClassFor(s).Some?
    ensures var r := Step(c, s, eps, topics).0;
      var prev := c.service[s].value.socket;
      && r.service[s] == Some(Service(ClassFor(s).value, eps[s].dsn, c.openCount))
      && c.openCount !in c.registered
      && r.registered == c.registered - {prev} + {c.openCount}
      && prev !in r.index && c.openCount in r.index
      && r.events == c.events + [ServiceDetached(s, prev), ServiceAttached(s, c.openCount)]
  {
    RemoveServiceValid(c, s);
    AttachValid(RemoveService(c, s, c.service[s]), s, ClassFor(s).value, eps[s]);
  }

  /** When the status service's endpoint vanishes, it is detached and one
      "service gone" notification follows per topic it tracked. */
  lemma {:induction false} StatusVanishes(c: Conn, eps: map<string, Endpoint>, topics: seq<string>)
    requires Valid(c) && Live(c.service, "status") && "status" !in eps
    ensures var r := Step(c, "status", eps, topics);
      var sock := c.service["status"].value.socket;
      && r.0.service["status"] == None && !r.1
      && sock !in r.0.registered && sock !in r.0.index
      && r.0.events == c.events + [ServiceDetached("status", sock)] + GoneEvents(topics)
      && |r.0.events| == |c.events| + 1 + |topics|
  {
    RemoveServiceValid(c, "status");
  }

  /** `self.service.values()` with `service.ping()` for each live one. */
  function PingEvents(m: map<string, Option<Service>>, keys: seq<string>): seq<Event>
  {
    if keys == [] then []
    else
      var s := keys[|keys| - 1];
      PingEvents(m, keys[..|keys| - 1]) + (if Live(m, s) then [Pinged(s)] else [])
  }

  /** What `__getitem__` returns: a service or one of its attributes. */
  datatype Item<V> = ServiceItem(service: Service) | Attribute(value: V)

  /** `mk[index]`: the first dotted segment names a category; with no further
      segment the live service itself is returned, otherwise what the
      service's own lookup (`lookup`) gives for the remaining segments. */
  function GetItem<V>(m: map<string, Option<Service>>, index: string,
                      lookup: (Service, seq<string>) -> Option<V>): (r: Option<Item<V>>)
    ensures r.Some? ==> Live(m, Split(index, '.')[0])
    ensures '.' !in index ==> r == if Live(m, index) then Some(ServiceItem(m[index].value)) else None
    ensures '.' in index && r.Some? ==> r.value.Attribute?
    ensures var path := Split(index, '.');
      |path| > 1 && Live(m, path[0]) ==>
        r == match lookup(m[path[0]].value, path[1..])
             case None => None
             case Some(v) => Some(Attribute(v))
  {
    var path := Split(index, '.');
    if Live(m, path[0]) then
      var svc := m[path[0]].value;
      if |path| > 1 then
        match lookup(svc, path[1..])
        case None => None
        case Some(v) => Some(Attribute(v))
      else
        assert '.' !in index by { assert Join(path, ".") == path[0]; }
        Some(ServiceItem(svc))
    else None
  }

  /** `providesServices(services)`: None stands for the KeyError Python raises
      when a name is not a category of the instance. */
  function ProvidesServices(m: map<string, Option<Service>>, services: Option<seq<string>>): (r: Option<bool>)
    ensures r.None? <==> services.Some? && exists s :: s in services.value && s !in m
    ensures services.None? ==> r == Some(forall s :: s in m ==> Live(m, s))
    ensures services.Some? && r.Some? ==> r.value == (forall s :: s in services.value ==> Live(m, s))
  {
    match services
    case None => Some(forall s :: s in m ==> Live(m, s))
    case Some(names) =>
      if exists s :: s in names && s !in m then None
      else Some(forall s :: s in names ==> Live(m, s))
  }

  /** After a pass over the categories, status and command are both
      provided exactly when both endpoints are advertised. */
  lemma {:induction false} ProvidesStatusAndCommand(c: Conn, keys: seq<string>, eps: map<string, Endpoint>, topics: seq<string>)
    requires Valid(c) && Distinct(keys) && "status" in keys && "command" in keys
    requires forall k :: k in keys ==> k in c.service && k != "" && ClassFor(k).Some?
    ensures var r := Reconcile(c, keys, eps, topics).0;
      ProvidesServices(r.service, Some(["status", "command"])) == Some("status" in eps && "command" in eps)
  {
    var r := Reconcile(c, keys, eps, topics).0;
    assert Live(r.service, "status") == ("status" in eps) && Live(r.service, "command") == ("command" in eps) by {
      ReconcileSpec(c, keys, eps, topics);
    }
    ProvidesPair(r.service, "status", "command");
  }

  lemma ProvidesPair(m: map<string, Option<Service>>, a: string, b: string)
    requires a in m && b in m
    ensures ProvidesServices(m, Some([a, b])) == Some(Live(m, a) && Live(m, b))
  {
    var names := [a, b];
    assert forall s :: s in names ==> s == a || s == b;
  }

  /** The instance advertises only the status service, then the command service
      too: whether status and command are both provided flips from false to
      true on the pass that sees the command endpoint, and not before; the
      status service is kept across that pass. */
  lemma {:induction false} ProvidesAfterCommandAppears(registered: set<Socket>, openCount: nat,
                                    e1: map<string, Endpoint>, command: Endpoint, topics: seq<string>)
    requires forall k :: k in registered ==> k < openCount
    requires "status" in e1 && "command" !in e1
    ensures var c0 := Initial(registered, openCount);
      var c1 := Reconcile(c0, Categories, e1, topics).0;
      var c2 := Reconcile(c1, Categories, e1["command" := command], topics).0;
      && ProvidesServices(c1.service, Some(["status", "command"])) == Some(false)
      && ProvidesServices(c2.service, Some(["status", "command"])) == Some(true)
      && c2.service["status"] == c1.service["status"]
  {
    var c0 := Initial(registered, openCount);
    var e2 := e1["command" := command];
    var c1 := Reconcile(c0, Categories, e1, topics).0;
    CategoryFacts();
    assert Valid(c0) && forall k :: k in Categories ==> k in c0.service by {
      InitialValid(registered, openCount);
    }
    assert Valid(c1) by {
      ReconcileSpec(c0, Categories, e1, topics);
    }
    ProvidesStatusAndCommand(c0, Categories, e1, topics);
    ProvidesStatusAndCommand(c1, Categories, e2, topics);
    assert Reconcile(c1, Categories, e2, topics).0.service["status"] == c1.service["status"] by {
      ReconcileSpec(c1, Categories, e2, topics);
      ReconcileSpec(c0, Categories, e1, topics);
      assert Live(c1.service, "status");
    }
  }
}
