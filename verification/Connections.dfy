/** The cache of client connections to functions (xfn/function_runner.go).  Each method is
    one critical section under the lock, or the reading of revisions before any; what a
    goroutine carries from one to the next are the arguments.  Goroutines interleave between
    methods, so what every method keeps holds over all interleavings. */
module Connections {
  import opened Results

  class ClientConn {
    const function_: string  // the function it was made for
    const target: string
    var closed: bool

    constructor (name: string, target: string)
      ensures function_ == name && this.target == target && !closed
    {
      function_, this.target, closed := name, target, false;
    }

    method Close()
      modifies this
      ensures closed
    {
      closed := true;
    }
  }

  datatype Revision = Revision(name: string, active: bool, endpoint: string)

  datatype Error = NoActiveRevision | EmptyEndpoint(revision: string) | CannotDial(endpoint: string) | CannotList

  ghost predicate IsFirstActive(revisions: seq<Revision>, i: nat) {
    i < |revisions| && revisions[i].active && forall j :: 0 <= j < i ==> !revisions[j].active
  }

  /** The endpoint a caller reads: that of the first active revision. */
  method ActiveEndpoint(revisions: seq<Revision>) returns (r: Result<string, Error>)
    ensures r == Err(NoActiveRevision) <==> forall i :: 0 <= i < |revisions| ==> !revisions[i].active
    ensures forall i: nat :: IsFirstActive(revisions, i) ==>
      r == if revisions[i].endpoint == "" then Err(EmptyEndpoint(revisions[i].name)) else Ok(revisions[i].endpoint)
  {
    for i := 0 to |revisions|
      invariant forall j :: 0 <= j < i ==> !revisions[j].active
    {
      if revisions[i].active {
        assert IsFirstActive(revisions, i);
        return if revisions[i].endpoint == "" then Err(EmptyEndpoint(revisions[i].name)) else Ok(revisions[i].endpoint);
      }
    }
    return Err(NoActiveRevision);
  }

  /** What a goroutine is about to do. */
  datatype Phase =
    | LookingUp(name: string, endpoint: string)
    | Dialling(name: string, endpoint: string)
    | Collecting

  /** A caller read an endpoint for a function and got a connection. */
  datatype Answer = Answer(name: string, endpoint: string, conn: ClientConn)

  class PackagedFunctionRunner {
    var conns: map<string, ClientConn>
    ghost var created: set<ClientConn>  // every connection ever made

    /** Each connection ever made is open and stored under its own function's name, or
        closed and not stored. */
    ghost predicate Valid()
      reads this, created
    {
      && conns.Values <= created
      && (forall n :: n in conns ==> conns[n].function_ == n)
      && (forall c :: c in created ==> (!c.closed <==> c in conns.Values))
    }

    constructor ()
      ensures Valid() && conns == map[] && created == {}
    {
      conns, created := map[], {};
    }

    /** getClientConn under the read lock. */
    method LookUp(name: string, endpoint: string) returns (conn: ClientConn?)
      requires Valid()
      ensures conn != null <==> name in conns && conns[name].target == endpoint
      ensures conn != null ==> conn == conns[name] && !conn.closed
    {
      if name in conns && conns[name].target == endpoint {
        return conns[name];
      }
      return null;
    }

    /** getClientConn under the write lock: look again, replace a connection to another
        endpoint, dial.  Dialling can fail; the old connection is gone by then. */
    method LookUpOrDial(name: string, endpoint: string, dials: bool) returns (r: Result<ClientConn, Error>)
      requires Valid()
      modifies this, conns.Values
      ensures Valid() && old(created) <= created && fresh(created - old(created))
      ensures r.Ok? ==> r.value.target == endpoint && !r.value.closed && conns == old(conns)[name := r.value]
      ensures old(name in conns && conns[name].target == endpoint) ==>
        r.Ok? && conns == old(conns) && created == old(created)
      ensures r.Err? <==> !dials && !old(name in conns && conns[name].target == endpoint)
      ensures r.Err? ==> r.error == CannotDial(endpoint) && conns == old(conns) - {name} && created == old(created)
    {
      if name in conns {
        if conns[name].target == endpoint {
          return Ok(conns[name]);
        }
        Drop(name);
      }
      if !dials {
        return Err(CannotDial(endpoint));
      }
      var conn := new ClientConn(name, endpoint);
      StoredBeside(conns, name, conn);
      conns := conns[name := conn];
      created := created + {conn};
      return Ok(conn);
    }

    /** Closes a stored connection and forgets it. */
    method Drop(name: string)
      requires Valid() && name in conns
      modifies this`conns, conns[name]
      ensures Valid() && conns == old(conns) - {name}
    {
      OnlyStoredOnce(name);
      conns[name].Close();
      conns := conns - {name};
    }

    lemma OnlyStoredOnce(name: string)
      requires Valid() && name in conns
      ensures conns[name] !in (conns - {name}).Values
      ensures forall c :: c in conns.Values && c != conns[name] ==> c in (conns - {name}).Values
    {
      forall c | c in conns.Values && c != conns[name] ensures c in (conns - {name}).Values {
        var n :| n in conns && conns[n] == c;
        assert n in conns - {name};
      }
    }

    /** GarbageCollectConnectionsNow under the read lock: is there anything to collect? */
    method AnyConnections() returns (any: bool)
      ensures any <==> conns != map[]
    {
      return |conns| != 0;
    }

    /** GarbageCollectConnectionsNow under the write lock: close and drop the connections of
        functions that are not installed.  installed is None when they cannot be listed. */
    method Collect(installed: Option<set<string>>) returns (r: Result<nat, Error>)
      requires Valid()
      modifies this, conns.Values
      ensures Valid() && created == old(created)
      ensures r.Err? <==> installed.None?
      ensures r.Err? ==> conns == old(conns)
      ensures r.Ok? ==> conns == (map n | n in old(conns) && n in installed.value :: old(conns)[n])
      ensures r.Ok? ==> r.value == |old(conns)| - |conns|
    {
      if installed.None? {
        return Err(CannotList);
      }
      var closed: nat := 0;
      var todo := conns.Keys;
      while todo != {}
        invariant Valid() && created == old(created) && todo <= conns.Keys && conns.Keys <= old(conns.Keys)
        invariant conns.Values <= old(conns.Values)
        invariant forall n :: n in conns ==> conns[n] == old(conns)[n]
        invariant Swept(old(conns), installed.value, conns.Keys, todo)
        invariant closed == |old(conns)| - |conns|
        decreases todo
      {
        var name :| name in todo;
        todo := todo - {name};
        if name !in installed.value {
          CountWithout(conns, name);
          Drop(name);
          closed := closed + 1;
        }
      }
      return Ok(closed);
    }

    /** What was answered: a connection of that function to the endpoint that its caller read. */
    ghost predicate RightAnswer(a: Answer)
      reads this
    {
      a.conn in created && a.conn.function_ == a.name && a.conn.target == a.endpoint
    }

    /** Any number of steps of any goroutines, in any order, each looking up connections or
        collecting them: every connection ever made stays open and stored or closed and not,
        and every answer is right. */
    method Interleave(steps: nat) returns (answers: seq<Answer>)
      requires Valid()
      modifies this, conns.Values
      ensures Valid() && old(created) <= created
      ensures forall a :: a in answers ==> RightAnswer(a)
    {
      var goroutines: map<int, Phase> := map[];
      answers := [];
      for i := 0 to steps
        invariant Valid() && old(created) <= created
        invariant forall c :: c in conns.Values ==> c in old(conns.Values) || fresh(c)
        invariant forall a :: a in answers ==> RightAnswer(a)
      {
        var t: int := *;
        if t !in goroutines {
          var phase := Begin();
          goroutines := if phase.Some? then goroutines[t := phase.value] else goroutines;
        } else {
          var next, answer := Step(goroutines[t]);
          goroutines := if next.Some? then goroutines[t := next.value] else goroutines - {t};
          answers := if answer.Some? then answers + [answer.value] else answers;
        }
      }
    }

    /** A goroutine reads the endpoint of a function, or finds that there is something to collect. */
    method Begin() returns (phase: Option<Phase>)
    {
      var collects: bool := *;
      if collects {
        var any := AnyConnections();
        return if any then Some(Collecting) else None;
      }
      var name: string, revisions: seq<Revision> := *, *;
      var endpoint := ActiveEndpoint(revisions);
      return if endpoint.Ok? then Some(LookingUp(name, endpoint.value)) else None;
    }

    /** A goroutine passes through its next critical section. */
    method Step(phase: Phase) returns (next: Option<Phase>, answer: Option<Answer>)
      requires Valid()
      modifies this, conns.Values
      ensures Valid() && old(created) <= created
      ensures forall c :: c in conns.Values ==> c in old(conns.Values) || fresh(c)
      ensures answer.Some? ==> RightAnswer(answer.value) && !answer.value.conn.closed
    {
      next, answer := None, None;
      match phase
      case LookingUp(name, endpoint) =>
        var conn := LookUp(name, endpoint);
        if conn == null {
          next := Some(Dialling(name, endpoint));
        } else {
          answer := Some(Answer(name, endpoint, conn));
        }
      case Dialling(name, endpoint) =>
        var dials: bool := *;
        var r := LookUpOrDial(name, endpoint, dials);
        if r.Ok? {
          assert conns[name] == r.value;
          answer := Some(Answer(name, endpoint, r.value));
        }
      case Collecting =>
        var installed: Option<set<string>> := *;
        var _ := Collect(installed);
    }
  }

  /** Of the names looked at, exactly those of installed functions are left. */
  ghost predicate Swept(before: map<string, ClientConn>, installed: set<string>, left: set<string>, todo: set<string>) {
    forall n :: n in before && n !in todo ==> (n in left <==> n in installed)
  }

  lemma StoredBeside(m: map<string, ClientConn>, name: string, conn: ClientConn)
    requires name !in m
    ensures m[name := conn].Values == m.Values + {conn}
  {
    var r := m[name := conn];
    forall c ensures c in r.Values <==> c in m.Values + {conn} {
      if c in m.Values {
        var n :| n in m && m[n] == c;
        assert r[n] == c;
      }
      if c == conn { assert r[name] == c; }
    }
  }

  lemma CountWithout(m: map<string, ClientConn>, name: string)
    requires name in m
    ensures |m - {name}| == |m| - 1
  {
    assert (m - {name}).Keys == m.Keys - {name};
    assert |m| == |m.Keys|;
  }
}
