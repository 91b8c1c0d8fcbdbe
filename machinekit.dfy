/** One Machinekit instance as the workbench sees it: its services, the
    job loaded into it, the heartbeat that keeps both up to date, and the
    status queries and command builders of `machinekit.py`.

    What the status service would answer about the machine is passed in as
    a `StatusView`: an attribute such as `status.task.file` is present only
    while the status service is live. The outside world of one heartbeat
    (the instance's advertised endpoints, the topics the status service
    tracks, the fetched g-code and the open documents) is a `World`. */
module Machinekit {
  import opened Util
  import opened Commands
  import opened JobSync
  import opened Services
  import opened Homing

  /** `Machinekit.RemoteFilename` */
  const RemoteFilename := "FreeCAD.ngc"

  /** The heartbeat acts only when strictly more than this many seconds have
      passed since the last time it acted. */
  const PingInterval: real := 0.5

  datatype StatusView = StatusView(
    valid: bool,                     // status.isValid()
    estop: bool,                     // status.io.estop
    enabled: bool,                   // status.motion.enabled
    motionAxes: seq<MotionAxis>,     // status.motion.axis
    configAxes: seq<ConfigAxis>,     // status.config.axis
    taskFile: Option<string>,        // status.task.file
    remotePath: Option<string>)      // status.config.remote_path

  datatype World = World(
    endpoints: map<string, Endpoint>,  // instance.endpointFor / instance.endpoint
    topics: seq<string>,               // topicNames() of the status service
    view: StatusView,
    fetched: seq<string>,              // the stripped lines of the remote file
    docs: seq<Document>)               // FreeCAD.listDocuments()

  /** Everything an instance keeps between heartbeats. */
  datatype MkState = MkState(
    conn: Conn, lastPing: real, needUpdateJob: bool,
    gcode: seq<string>, job: Option<Job>, log: seq<Notice>)

  /** The invariant of the connection state of an instance: valid, and the
      category map holds exactly the named register entries. */
  ghost predicate ValidState(c: Conn) {
    Valid(c) && c.service.Keys == set s | s in Categories
  }

  /** `self['status.task.file']` */
  function TaskFile(m: map<string, Option<Service>>, view: StatusView): Option<string> {
    if Live(m, "status") then view.taskFile else None
  }

  /** `remoteFilePath(path)`: the file under the machine's remote path, none
      when there is no status service or its remote path is empty. */
  function RemoteFilePath(m: map<string, Option<Service>>, view: StatusView, path: Option<string>): (r: Option<string>)
    ensures r.Some? <==> Live(m, "status") && view.remotePath.Some? && view.remotePath.value != ""
    ensures r.Some? ==>
      var name := if path.Some? then path.value else RemoteFilename;
      && StartsWith(r.value, view.remotePath.value)
      && r.value[|view.remotePath.value|..] == "/" + name
  {
    var base := if Live(m, "status") then view.remotePath else None;
    if base.Some? && base.value != "" then
      Some(base.value + "/" + (if path.Some? then path.value else RemoteFilename))
    else None
  }

  /** `isValid()` */
  predicate IsValid(m: map<string, Option<Service>>, view: StatusView) {
    Live(m, "status") && view.valid && Live(m, "command")
  }

  /** `isPowered()` */
  predicate IsPowered(m: map<string, Option<Service>>, view: StatusView) {
    IsValid(m, view) && !view.estop && view.enabled
  }

  /** `isHomed()` */
  predicate IsHomed(m: map<string, Option<Service>>, view: StatusView) {
    IsPowered(m, view) && forall k :: 0 <= k < |view.motionAxes| ==> view.motionAxes[k].homed != 0
  }

  /** A homed machine is powered, a powered one valid, and a valid one
      provides the status and command services; a powered machine is homed
      exactly when `home()` would find no axis to home. */
  lemma ReadinessLadder(m: map<string, Option<Service>>, view: StatusView)
    requires "status" in m && "command" in m
    ensures IsHomed(m, view) ==> IsPowered(m, view)
    ensures IsPowered(m, view) ==> IsValid(m, view)
    ensures IsValid(m, view) ==> ProvidesServices(m, Some(["status", "command"])) == Some(true)
    ensures IsHomed(m, view) <==> IsPowered(m, view) && ToHome(view.motionAxes) == []
  {
    ProvidesPair(m, "status", "command");
    var r := ToHome(view.motionAxes);
    if r != [] {
      assert r[0] in r;
    }
    if !forall k :: 0 <= k < |view.motionAxes| ==> view.motionAxes[k].homed != 0 {
      var k :| 0 <= k < |view.motionAxes| && view.motionAxes[k].homed == 0;
      assert view.motionAxes[k].index in r;
    }
  }

  /** `power()`: release the emergency stop if it is engaged, then toggle
      power; the commands go out in one call, when there is a command
      service. */
  function PowerCall(m: map<string, Option<Service>>, view: StatusView): (r: Option<Call>)
    ensures r.Some? <==> Live(m, "command")
  {
    var release := if Live(m, "status") && view.estop then [Estop(false)] else [];
    if Live(m, "command") then Some(SendCommands(release + [Power(!IsPowered(m, view))])) else None
  }

  /** A powered machine is switched off and nothing else; a machine in
      emergency stop is released and switched on; otherwise it is switched
      on (power is only on with the stop released). */
  lemma PowerToggles(m: map<string, Option<Service>>, view: StatusView)
    requires Live(m, "command")
    ensures IsPowered(m, view) ==> PowerCall(m, view) == Some(SendCommands([Power(false)]))
    ensures Live(m, "status") && view.estop ==>
              PowerCall(m, view) == Some(SendCommands([Estop(false), Power(true)]))
    ensures !IsPowered(m, view) && !(Live(m, "status") && view.estop) ==>
              PowerCall(m, view) == Some(SendCommands([Power(true)]))
  {
    var on := !IsPowered(m, view);
    assert [] + [Power(on)] == [Power(on)];
    assert [Estop(false)] + [Power(on)] == [Estop(false), Power(on)];
  }

  /** `setJob(job)`: bind `j`; the job-changed notification goes out only
      when the bound job is another object (SameJob). Rebinding the same
      object keeps it, which here means holding its latest snapshot. */
  function WithJob(s: MkState, j: Option<Job>): (r: MkState)
    ensures r.job == j
    ensures r.conn.events == s.conn.events + (if SameJob(s.job, j) then [] else [JobChanged(j)])
    ensures r == s.(job := j, conn := r.conn) && r.conn == s.conn.(events := r.conn.events)
  {
    var t := s.(job := j);
    if SameJob(s.job, j) then t else t.(conn := s.conn.(events := s.conn.events + [JobChanged(j)]))
  }

  /** Binding the same job twice notifies once. */
  lemma WithJobIdempotent(s: MkState, j: Option<Job>)
    ensures WithJob(WithJob(s, j), j) == WithJob(s, j)
    ensures |WithJob(WithJob(s, j), j).conn.events| <= |s.conn.events| + 1
  {
  }

  /** `updateJob()` on the state of an instance. */
  function UpdateJobSpec(s: MkState, w: World): MkState {
    var m := s.conn.service;
    var f := RefreshJob(TaskFile(m, w.view), RemoteFilePath(m, w.view, None),
                        "file" in w.endpoints, w.fetched, w.docs, s.gcode);
    WithJob(s.(needUpdateJob := f.needUpdate, gcode := f.gcode, log := s.log + f.notices), f.job)
  }

  /** Without the task's file, a remote path or a `file` endpoint, `updateJob`
      asks to be retried, forgets the g-code and unbinds the job. */
  lemma UpdateJobMissing(s: MkState, w: World)
    requires TaskFile(s.conn.service, w.view).None? || RemoteFilePath(s.conn.service, w.view, None).None?
             || "file" !in w.endpoints
    ensures var r := UpdateJobSpec(s, w);
      && r.needUpdateJob && r.gcode == [] && r.job == None
      && r.log == s.log && r.conn.service == s.conn.service
      && r.conn.events == s.conn.events + (if s.job == None then [] else [JobChanged(None)])
  {
  }

  /** When the task runs a file other than the workbench's remote file,
      nothing is bound and the g-code is kept. */
  lemma UpdateJobOtherFile(s: MkState, w: World)
    requires TaskFile(s.conn.service, w.view).Some? && RemoteFilePath(s.conn.service, w.view, None).Some?
    requires "file" in w.endpoints
    requires TaskFile(s.conn.service, w.view) != RemoteFilePath(s.conn.service, w.view, None)
    ensures var r := UpdateJobSpec(s, w);
      && !r.needUpdateJob && r.gcode == s.gcode && r.job == None && r.log == s.log
  {
  }

  /** When the task runs the workbench's remote file and that file was
      written for a job of an open document, that job is bound, even when
      its path changed since (the signature differs): then only the log says
      "out of date". */
  lemma UpdateJobBinds(s: MkState, w: World, h: Header, rest: seq<string>, i: nat)
    requires Live(s.conn.service, "status") && w.view.taskFile.Some? && "file" in w.endpoints
    requires RemoteFilePath(s.conn.service, w.view, None) == w.view.taskFile
    requires w.fetched == HeaderLines(h) + rest
    requires i < |w.docs| && w.docs[i].fileName == h.filename && h.title in w.docs[i].objects
    requires forall k :: 0 <= k < |w.docs| && k != i ==> w.docs[k].fileName != h.filename
    ensures var r := UpdateJobSpec(s, w);
      var j := w.docs[i].objects[h.title];
      && !r.needUpdateJob && r.gcode == w.fetched
      && r.job == Some(j)
      && r.log == s.log + [if j.signature == h.signature then Loaded(j) else OutOfDate(j)]
  {
    RefreshBindsWrittenJob(w.view.taskFile.value, h, rest, w.docs, i, s.gcode);
  }

  /** The pass over the categories of `_update`. */
  function Pass(s: MkState, w: World): MkState
    requires forall k :: k in Categories ==> k in s.conn.service
  {
    s.(conn := Reconcile(s.conn, Categories, w.endpoints, w.topics).0)
  }

  /** The job refresh of `_update`, done only when one is pending. */
  function RefreshPending(s: MkState, w: World): MkState {
    if s.needUpdateJob then UpdateJobSpec(s, w) else s
  }

  /** The end of `_update`: every live service is pinged and the time of the
      heartbeat remembered. */
  function Ping(s: MkState, now: real): MkState {
    s.(conn := s.conn.(events := s.conn.events + PingEvents(s.conn.service, Categories)), lastPing := now)
  }

  /** `_update(now)`: nothing happens unless more than half a second has
      passed since the last ping; then the services are reconciled, the job
      is refreshed when a refresh is pending, every live service is pinged
      and the time is remembered. */
  function Heartbeat(s: MkState, now: real, w: World): MkState
    requires forall k :: k in Categories ==> k in s.conn.service
  {
    if now - s.lastPing > PingInterval then Ping(RefreshPending(Pass(s, w), w), now) else s
  }

  /** The pings of a pass: one per live category, in category order. */
  lemma {:induction false} PingEventsSpec(m: map<string, Option<Service>>, keys: seq<string>)
    ensures forall e :: e in PingEvents(m, keys) ==> e.Pinged? && e.category in keys && Live(m, e.category)
    ensures forall s :: s in keys && Live(m, s) ==> Pinged(s) in PingEvents(m, keys)
    decreases |keys|
  {
    if keys != [] {
      var init := keys[..|keys| - 1];
      PingEventsSpec(m, init);
      assert forall s :: s in init ==> s in keys;
      assert forall s :: s in keys ==> s in init || s == keys[|keys| - 1];
    }
  }

  /** Over distinct categories no service is pinged twice, so with
      PingEventsSpec each live one is pinged exactly once. */
  lemma {:induction false} PingEventsOnce(m: map<string, Option<Service>>, keys: seq<string>)
    requires Distinct(keys)
    ensures Distinct(PingEvents(m, keys))
    decreases |keys|
  {
    if keys != [] {
      var init, last := keys[..|keys| - 1], keys[|keys| - 1];
      assert Distinct(init) by {
        forall i, j | 0 <= i < j < |init| ensures init[i] != init[j] {
          assert init[i] == keys[i] && init[j] == keys[j];
        }
      }
      PingEventsOnce(m, init);
      PingEventsSpec(m, init);
      assert last !in init by {
        forall i | 0 <= i < |init| ensures init[i] != last {
          assert init[i] == keys[i];
        }
      }
      var p := PingEvents(m, init);
      var q := PingEvents(m, keys);
      assert q == p + (if Live(m, last) then [Pinged(last)] else []);
      forall i, j | 0 <= i < j < |q| ensures q[i] != q[j] {
        if j == |p| {
          assert q[i] == p[i] && p[i] in p;
        } else {
          assert q[i] == p[i] && q[j] == p[j];
        }
      }
    }
  }

  /** The pings follow the order of the categories. */
  lemma {:induction false} PingEventsAppend(m: map<string, Option<Service>>, a: seq<string>, b: seq<string>)
    ensures PingEvents(m, a + b) == PingEvents(m, a) + PingEvents(m, b)
    decreases |b|
  {
    if b == [] {
      assert a + b == a;
    } else {
      var init, last := b[..|b| - 1], b[|b| - 1];
      assert (a + b)[..|a + b| - 1] == a + init && (a + b)[|a + b| - 1] == last;
      PingEventsAppend(m, a, init);
    }
  }

  /** The pass over the categories keeps an instance valid and leaves the
      poller holding the live services' sockets besides the registrations
      of others. */
  lemma PassValid(s: MkState, w: World)
    requires ValidState(s.conn)
    ensures forall k :: k in Categories ==> k in s.conn.service
    ensures ValidState(Pass(s, w).conn)
    ensures Pass(s, w).conn.registered == Others(s.conn) + LiveSockets(Pass(s, w).conn.service)
  {
    CategoryFacts();
    ReconcileFrame(s.conn, Categories, w.endpoints, w.topics);
    RegisteredOfValid(Pass(s, w).conn);
  }

  /** The job refresh and the pings change the notifications, the job and
      the time only: the services, sockets and poller stay as they are. */
  lemma RefreshAndPingFrame(s: MkState, now: real, w: World)
    ensures var r := Ping(RefreshPending(s, w), now);
      && r.conn.service == s.conn.service && r.conn.index == s.conn.index
      && r.conn.registered == s.conn.registered && r.conn.openCount == s.conn.openCount
      && r.lastPing == now
  {
    if s.needUpdateJob {
      UpdateJobFrame(s, w);
    }
  }

  /** A heartbeat keeps an instance valid. Before the interval has passed it
      changes nothing; after, the poller holds exactly the live services'
      sockets besides the registrations of others, and the time of the
      heartbeat is remembered. */
  lemma HeartbeatValid(s: MkState, now: real, w: World)
    requires ValidState(s.conn)
    ensures forall k :: k in Categories ==> k in s.conn.service
    ensures var r := Heartbeat(s, now, w);
      && ValidState(r.conn)
      && (!(now - s.lastPing > PingInterval) ==> r == s)
      && (now - s.lastPing > PingInterval ==>
            r.lastPing == now && r.conn.registered == Others(s.conn) + LiveSockets(r.conn.service))
  {
    PassValid(s, w);
    if now - s.lastPing > PingInterval {
      RefreshAndPingFrame(Pass(s, w), now, w);
      ValidStateFrame(Pass(s, w).conn, Heartbeat(s, now, w).conn);
    }
  }

  /** Validity depends on the services, sockets and poller, not on the
      notifications. */
  lemma ValidStateFrame(a: Conn, b: Conn)
    requires ValidState(a)
    requires b.service == a.service && b.index == a.index
    requires b.registered == a.registered && b.openCount == a.openCount
    ensures ValidState(b)
  {
    assert b == a.(events := b.events);
  }

  /** After a heartbeat past the interval every category holds a service
      exactly when the instance advertises an endpoint for it, and the
      notifications end with one ping per live service. */
  lemma HeartbeatServices(s: MkState, now: real, w: World)
    requires ValidState(s.conn)
    requires now - s.lastPing > PingInterval
    ensures forall k :: k in Categories ==> k in s.conn.service
    ensures var r := Heartbeat(s, now, w);
      && (forall c :: c in Categories ==> (Live(r.conn.service, c) <==> c in w.endpoints))
      && (exists front :: r.conn.events == front + PingEvents(r.conn.service, Categories))
      && (forall c :: c in Categories && Live(r.conn.service, c) ==>
            Pinged(c) in PingEvents(r.conn.service, Categories))
  {
    CategoryFacts();
    ReconcileLive(s.conn, Categories, w.endpoints, w.topics);
    var s1 := Pass(s, w);
    if s.needUpdateJob {
      UpdateJobFrame(s1, w);
    }
    var s2 := RefreshPending(s1, w);
    assert s2.conn.service == s1.conn.service;
    PingEventsSpec(s2.conn.service, Categories);
  }

  /** With no job refresh pending, a heartbeat keeps the job, the g-code and
      the log, and no refresh becomes pending. */
  lemma HeartbeatKeepsJob(s: MkState, now: real, w: World)
    requires forall k :: k in Categories ==> k in s.conn.service
    requires !s.needUpdateJob
    ensures var r := Heartbeat(s, now, w);
      r.job == s.job && r.gcode == s.gcode && r.log == s.log && !r.needUpdateJob
  {
  }

  /** `updateJob` touches the job, the g-code, the retry flag, the log and
      (through `setJob`) the notifications, and nothing else. */
  lemma UpdateJobFrame(s: MkState, w: World)
    ensures var r := UpdateJobSpec(s, w);
      && r.conn == s.conn.(events := r.conn.events)
      && r.lastPing == s.lastPing
      && (exists tail :: r.conn.events == s.conn.events + tail)
  {
    var r := UpdateJobSpec(s, w);
    if r.conn.events == s.conn.events {
      assert r.conn.events == s.conn.events + [];
    }
  }

  /** The constructor's loop over `_MKServiceRegister`: every named entry
      becomes a category without a service. */
  method NamedCategories(reg: seq<(string, Option<Kind>)>) returns (m: map<string, Option<Service>>)
    ensures forall s :: s in m <==> s in NamedKeys(reg)
    ensures forall s :: s in m ==> m[s] == None
  {
    m := map[];
    for i := 0 to |reg|
      invariant forall s :: s in NamedKeys(reg) <==> s in m || s in NamedKeys(reg[i..])
      invariant forall s :: s in m ==> m[s] == None
    {
      var name := reg[i].0;
      assert reg[i..][1..] == reg[i + 1..];
      if name != "" {
        m := m[name := None];
      }
    }
  }

  /** A map from exactly the given categories to no service is the map
      comprehension over them. */
  lemma EmptyCategories(m: map<string, Option<Service>>, keys: seq<string>)
    requires forall s :: s in m <==> s in keys
    requires forall s :: s in m ==> m[s] == None
    ensures m == map s | s in keys :: None
  {
  }

  /** The class-level ZeroMQ context and poller that all instances share:
      the sockets registered for polling, and how many sockets the context
      has opened (a socket is named by its opening number). */
  class Poller {
    var registered: set<Socket>
    var openCount: nat

    constructor ()
      ensures registered == {} && openCount == 0
    {
      registered := {};
      openCount := 0;
    }

    /** A new socket of the shared context. */
    method Open() returns (sock: Socket)
      modifies this`openCount
      ensures sock == old(openCount) && openCount == old(openCount) + 1
    {
      sock := openCount;
      openCount := openCount + 1;
    }

    /** `Poller.register(socket, zmq.POLLIN)` */
    method Register(sock: Socket)
      modifies this`registered
      ensures registered == old(registered) + {sock}
    {
      registered := registered + {sock};
    }

    /** `Poller.unregister(socket)` */
    method Unregister(sock: Socket)
      modifies this`registered
      ensures registered == old(registered) - {sock}
    {
      registered := registered - {sock};
    }
  }

  /** `class Machinekit`: the category map, the socket index, the
      notifications sent, the heartbeat time, the job-refresh flag, the
      fetched g-code, the bound job and the log of job notices. */
  class Machinekit {
    const poller: Poller
    var service: map<string, Option<Service>>
    var socket: map<Socket, Service>
    var events: seq<Event>
    var lastPing: real
    var needUpdateJob: bool
    var gcode: seq<string>
    var job: Option<Job>
    var log: seq<Notice>

    function Connection(): Conn
      reads this, poller
    {
      Conn(service, socket, poller.registered, poller.openCount, events)
    }

    function State(): MkState
      reads this, poller
    {
      MkState(Connection(), lastPing, needUpdateJob, gcode, job, log)
    }

    ghost predicate Valid()
      reads this, poller
    {
      ValidState(Connection())
    }

    /** `__init__`: every named register entry becomes a category without a
        service; a job refresh is pending. */
    constructor (poller: Poller, now: real)
      requires forall k :: k in poller.registered ==> k < poller.openCount
      ensures this.poller == poller
      ensures State() == MkState(Initial(poller.registered, poller.openCount), now, true, [], None, [])
      ensures Valid()
    {
      var m := NamedCategories(Register);
      CategoriesOfRegister();
      EmptyCategories(m, Categories);
      this.poller := poller;
      service := m;
      socket := map[];
      events := [];
      lastPing := now;
      needUpdateJob := true;
      gcode := [];
      job := None;
      log := [];
      new;
      InitialValid(poller.registered, poller.openCount);
    }

    /** `removeService(s, service)` */
    method RemoveService(s: string, svc: Option<Service>)
      requires s in service
      modifies this, poller`registered
      ensures State() == old(State()).(conn := Services.RemoveService(old(Connection()), s, svc))
    {
      if s != "" && svc.Some? {
        var sock := svc.value.socket;
        poller.Unregister(sock);
        socket := socket - {sock};
        service := service[s := None];
        events := events + [ServiceDetached(s, sock)];
      }
    }

    /** The branch of `_updateServicesLocked` for a category whose endpoint
        went away. */
    method Vanish(s: string, svc: Option<Service>, topics: seq<string>)
      requires s in service
      modifies this, poller`registered
      ensures Connection() == Services.Vanish(old(Connection()), s, svc, topics)
      ensures State() == old(State()).(conn := Connection())
    {
      RemoveService(s, svc);
      if s == "status" {
        var gone: seq<Event> := [];
        for j := 0 to |topics|
          invariant gone == GoneEvents(topics[..j])
        {
          gone := gone + [StatusGone(topics[j])];
          assert topics[..j + 1][..j] == topics[..j];
        }
        assert topics[..|topics|] == topics;
        events := events + gone;
      }
    }

    /** The branch of `_updateServicesLocked` for a category without a
        service whose endpoint is `ep`; `keep` is true when it set `poll`. */
    method Connect(s: string, ep: Endpoint) returns (keep: bool)
      requires s in service
      modifies this, poller
      ensures (Connection(), keep) == Services.Connect(old(Connection()), s, ep)
      ensures State() == old(State()).(conn := Connection())
    {
      var cls := ClassFor(s);
      if cls.None? {
        events := events + [Unsupported(s)];
        keep := false;
      } else {
        var sock := poller.Open();
        var v := Service(cls.value, ep.dsn, sock);
        socket := socket[sock := v];
        service := service[s := Some(v)];
        events := events + [ServiceAttached(s, sock)];
        poller.Register(sock);
        keep := true;
      }
    }

    /** The body of the loop of `_updateServicesLocked` for category `s`;
        `keep` is true when it set `poll`. */
    method UpdateService(s: string, eps: map<string, Endpoint>, topics: seq<string>) returns (keep: bool)
      requires s in service
      modifies this, poller
      ensures (Connection(), keep) == Step(old(Connection()), s, eps, topics)
      ensures State() == old(State()).(conn := Connection())
    {
      var svc := service[s];
      keep := false;
      if s !in eps {
        if svc.Some? {
          Vanish(s, svc, topics);
        }
      } else {
        var current := svc;
        if svc.Some? && eps[s].dsn != svc.value.dsn {
          RemoveService(s, svc);
          current := None;
        }
        if current.None? {
          keep := Connect(s, eps[s]);
        } else {
          keep := true;
        }
      }
    }

    /** The loop of `_updateServicesLocked` over the categories `keys`. */
    method ReconcileKeys(keys: seq<string>, eps: map<string, Endpoint>, topics: seq<string>) returns (poll: bool)
      requires forall k :: k in keys ==> k in service
      modifies this, poller
      ensures (Connection(), poll) == Reconcile(old(Connection()), keys, eps, topics)
      ensures State() == old(State()).(conn := Connection())
    {
      ghost var c0 := Connection();
      poll := false;
      for i := 0 to |keys|
        invariant service.Keys == c0.service.Keys
        invariant forall k :: k in keys[i..] ==> k in Connection().service
        invariant Reconcile(Connection(), keys[i..], eps, topics).0 == Reconcile(c0, keys, eps, topics).0
        invariant (poll || Reconcile(Connection(), keys[i..], eps, topics).1) == Reconcile(c0, keys, eps, topics).1
        invariant State() == old(State()).(conn := Connection())
      {
        var s := keys[i];
        assert keys[i..][0] == s && keys[i..][1..] == keys[i + 1..];
        var keep := UpdateService(s, eps, topics);
        poll := poll || keep;
      }
    }

    /** `_updateServicesLocked()`: one pass over the categories; see
        ReconcileSpec for what the pass establishes. */
    method UpdateServicesLocked(eps: map<string, Endpoint>, topics: seq<string>) returns (poll: bool)
      requires Valid()
      modifies this, poller
      ensures (Connection(), poll) == Reconcile(old(Connection()), Categories, eps, topics)
      ensures State() == old(State()).(conn := Connection())
      ensures Valid()
    {
      CategoryFacts();
      ghost var c0 := Connection();
      poll := ReconcileKeys(Categories, eps, topics);
      ReconcileFrame(c0, Categories, eps, topics);
    }

    /** `setJob(job)`: the source assigns only when `job` is another
        object; assigning the same object again would change nothing, so
        here the latest snapshot is always kept. */
    method SetJob(j: Option<Job>)
      modifies this
      ensures State() == WithJob(old(State()), j)
    {
      if !SameJob(job, j) {
        events := events + [JobChanged(j)];
      }
      job := j;
    }

    /** `updateJob()`: the fetch over the `file` endpoint is replaced by the
        lines `w.fetched`. */
    method UpdateJob(w: World)
      modifies this
      ensures State() == UpdateJobSpec(old(State()), w)
    {
      ghost var f := RefreshJob(TaskFile(service, w.view), RemoteFilePath(service, w.view, None),
                                "file" in w.endpoints, w.fetched, w.docs, gcode);
      var found: Option<Job> := None;
      var path := TaskFile(service, w.view);
      var rpath := RemoteFilePath(service, w.view, None);
      if path.None? || rpath.None? || "file" !in w.endpoints {
        needUpdateJob := true;
        gcode := [];
      } else {
        needUpdateJob := false;
        if rpath == path {
          gcode := w.fetched;
          var header := ParseHeader(gcode);
          if header.Some? {
            var h := header.value;
            var notices: seq<Notice> := [];
            for d := 0 to |w.docs|
              invariant found == Bind(w.docs[..d], h)
              invariant notices == Notices(w.docs[..d], h)
            {
              var doc := w.docs[d];
              assert w.docs[..d + 1][..d] == w.docs[..d];
              if doc.fileName == h.filename {
                found := GetObject(doc, h.title);
                if found.Some? {
                  var sign := found.value.signature;
                  if sign == h.signature {
                    notices := notices + [Loaded(found.value)];
                  } else {
                    notices := notices + [OutOfDate(found.value)];
                  }
                }
              }
            }
            assert w.docs[..|w.docs|] == w.docs;
            log := log + notices;
          }
        }
      }
      assert found == f.job && needUpdateJob == f.needUpdate && gcode == f.gcode;
      assert log == old(log) + f.notices;
      SetJob(found);
    }

    /** The end of `_update`: every live service is pinged, in category
        order, and the time of the heartbeat is remembered. */
    method PingServices(now: real)
      modifies this`events, this`lastPing
      ensures State() == Ping(old(State()), now)
    {
      var pings: seq<Event> := [];
      for i := 0 to |Categories|
        invariant pings == PingEvents(service, Categories[..i])
      {
        var s := Categories[i];
        assert Categories[..i + 1][..i] == Categories[..i];
        if s in service && service[s].Some? {
          pings := pings + [Pinged(s)];
        }
      }
      assert Categories[..|Categories|] == Categories;
      events := events + pings;
      lastPing := now;
    }

    /** `_update(now)` */
    method Update(now: real, w: World)
      requires Valid()
      modifies this, poller
      ensures State() == Heartbeat(old(State()), now, w)
      ensures Valid()
    {
      ghost var s0 := State();
      HeartbeatValid(s0, now, w);
      if now - lastPing > PingInterval {
        var _ := UpdateServicesLocked(w.endpoints, w.topics);
        assert State() == Pass(s0, w);
        if needUpdateJob {
          UpdateJob(w);
        }
        ghost var s2 := State();
        assert s2 == RefreshPending(Pass(s0, w), w);
        PingServices(now);
      }
    }

    /** `home()`: the sequence is built by the loops of the source, the
        groups' keys visited in ascending order. */
    method Home(view: StatusView, manual: seq<Cmd>, mdi: seq<Cmd>) returns (r: Option<Call>)
      ensures r.Some? <==> Live(service, "status") && Live(service, "command")
      ensures r.Some? ==> r.value == SendCommandSequence(HomePlan(manual, mdi, view.motionAxes, view.configAxes))
    {
      if !(Live(service, "status") && Live(service, "command")) {
        return None;
      }
      var toHome := ToHome(view.motionAxes);
      var order, inserted := GroupAxes(view.configAxes, toHome);
      var phases := HomePhases(order, Sort(inserted));
      SortedKeys(view.configAxes, toHome);
      r := Some(SendCommandSequence(Singletons(manual) + phases + [mdi] + [[TaskExecute(ZeroOffsets)]]));
    }
  }

  /** The loop of `home()` over `config.axis`: the `order` dictionary and the
      order in which its keys were first inserted. */
  method GroupAxes(config: seq<ConfigAxis>, toHome: seq<int>) returns (order: map<int, seq<int>>, inserted: seq<int>)
    ensures order == Groups(config, toHome)
    ensures inserted == KeyOrder(config, toHome)
  {
    order := map[];
    inserted := [];
    for i := 0 to |config|
      invariant order == Groups(config[..i], toHome)
      invariant inserted == KeyOrder(config[..i], toHome)
    {
      var axis := config[i];
      assert config[..i + 1][..i] == config[..i];
      if axis.index in toHome {
        var batch := if axis.homeSequence in order then order[axis.homeSequence] else [];
        batch := batch + [axis.index];
        if axis.homeSequence !in inserted {
          inserted := inserted + [axis.homeSequence];
        }
        order := order[axis.homeSequence := batch];
      }
    }
    assert config[..|config|] == config;
  }

  /** The loop of `home()` over the sorted keys: per group, one batch homing
      all its axes, then one batch per axis waiting until it is homed. */
  method HomePhases(order: map<int, seq<int>>, keys: seq<int>) returns (phases: seq<Batch>)
    requires forall k :: 0 <= k < |keys| ==> keys[k] in order
    ensures phases == Phases(order, keys)
  {
    phases := [];
    for t := 0 to |keys|
      invariant phases == Phases(order, keys[..t])
    {
      var batch := order[keys[t]];
      assert keys[..t + 1][..t] == keys[..t];
      var waits: seq<Batch> := [];
      for j := 0 to |batch|
        invariant waits == seq(j, k requires 0 <= k < j => [WaitHomed(batch[k])])
      {
        waits := waits + [[WaitHomed(batch[j])]];
      }
      phases := phases + ([HomeBatch(batch)] + waits);
    }
    assert keys[..|keys|] == keys;
  }
}
