/** All-or-nothing bring-up: a cluster either runs all its listeners, or leaves none behind. */
module Builder {
  import opened Wrappers

  /** One upstream to bring up; the flags say how the world will answer: its storage loads, its address binds. */
  datatype Spec = Spec(name: string, stored: bool, loads: bool, binds: bool)

  datatype Error = DuplicateName(name: string) | LoadFailed(name: string) | BindFailed(name: string) | ControlFailed

  /** `listeners` are the running listener tasks, `registry` the names that commands can address. */
  datatype Handle = Handle(listeners: seq<string>, registry: set<string>, routes: set<string>)

  predicate Distinct(specs: seq<Spec>) {
    forall i, j :: 0 <= i < j < |specs| ==> specs[i].name != specs[j].name
  }

  function Names(specs: seq<Spec>): (r: seq<string>)
    ensures |r| == |specs|
  {
    seq(|specs|, i requires 0 <= i < |specs| => specs[i].name)
  }

  function NameSet(specs: seq<Spec>): set<string> {
    set i | 0 <= i < |specs| :: specs[i].name
  }

  function StoredNames(specs: seq<Spec>): set<string> {
    set i | 0 <= i < |specs| && specs[i].stored :: specs[i].name
  }

  class Bringup {
    /** Listener tasks started and joined so far, the command task likewise, and whether the shutdown was signalled. */
    var started: seq<string>
    var joined: seq<string>
    var commandStarted: bool
    var commandJoined: bool
    var signalled: bool

    constructor ()
      ensures started == [] && joined == [] && !commandStarted && !commandJoined && !signalled
    {
      started, joined, commandStarted, commandJoined, signalled := [], [], false, false, false;
    }

    /** The duplicate check names the first spec whose name came before. */
    static method CheckNames(specs: seq<Spec>) returns (r: Option<Error>)
      ensures r.None? <==> Distinct(specs)
      ensures r.Some? ==> exists i, j :: 0 <= i < j < |specs| && specs[i].name == specs[j].name &&
                            Distinct(specs[..j]) && r.value == DuplicateName(specs[j].name)
    {
      var seen: set<string> := {};
      for j := 0 to |specs|
        invariant seen == NameSet(specs[..j])
        invariant Distinct(specs[..j])
      {
        if specs[j].name in seen {
          var i :| 0 <= i < j && specs[..j][i].name == specs[j].name;
          assert specs[i].name == specs[j].name;
          return Some(DuplicateName(specs[j].name));
        }
        assert forall i :: 0 <= i < j ==> specs[..j][i] == specs[i];
        assert forall i :: 0 <= i < j ==> specs[..j][i].name in seen;
        NamesGrow(specs, j);
        seen := seen + {specs[j].name};
      }
      assert specs[..|specs|] == specs;
      return None;
    }

    static lemma NamesGrow(specs: seq<Spec>, j: nat)
      requires j < |specs|
      ensures NameSet(specs[..j + 1]) == NameSet(specs[..j]) + {specs[j].name}
      ensures StoredNames(specs[..j + 1]) == StoredNames(specs[..j]) + if specs[j].stored then {specs[j].name} else {}
    {
      var longer, shorter := specs[..j + 1], specs[..j];
      assert longer[j] == specs[j];
      forall i | 0 <= i < j ensures longer[i] == shorter[i] {}
      forall n | n in NameSet(shorter) ensures n in NameSet(longer) {
        var i :| 0 <= i < j && shorter[i].name == n;
        assert longer[i].name == n;
      }
      forall n | n in StoredNames(shorter) ensures n in StoredNames(longer) {
        var i :| 0 <= i < j && shorter[i].stored && shorter[i].name == n;
        assert longer[i].name == n && longer[i].stored;
      }
    }

    /** Signals the shutdown and joins every listener task that runs. */
    method TearDown()
      requires joined == []
      modifies this
      ensures signalled && joined == started == old(started)
      ensures commandStarted == old(commandStarted) && commandJoined == old(commandJoined)
    {
      signalled := true;
      for i := 0 to |started|
        invariant signalled && started == old(started) && joined == started[..i]
        invariant commandStarted == old(commandStarted) && commandJoined == old(commandJoined)
      {
        joined := joined + [started[i]];
      }
    }

    /**
     * Bring-up of a whole cluster. It succeeds exactly when the names are distinct, every storage loads, every
     * listener binds and the control plane, if wanted, does; then nothing was torn down, and listeners, registry and
     * routes have exactly the specs' names. Otherwise every task that it started was signalled and joined.
     */
    method Run(specs: seq<Spec>, control: Option<bool>) returns (r: Result<Handle, Error>)
      requires started == [] && joined == [] && !commandStarted && !commandJoined && !signalled
      modifies this
      ensures r.Ok? <==>
              && Distinct(specs)
              && (forall i :: 0 <= i < |specs| ==> (specs[i].stored ==> specs[i].loads) && specs[i].binds)
              && (control.Some? ==> control.value)
      ensures r.Ok? ==>
              && r.value == Handle(Names(specs), NameSet(specs), StoredNames(specs))
              && started == Names(specs) && joined == [] && commandStarted && !commandJoined && !signalled
      ensures r.Err? ==> joined == started && commandJoined == commandStarted && (started != [] ==> signalled)
      ensures r.Err? && (r.error.DuplicateName? || r.error.LoadFailed?) ==> started == [] && !commandStarted
      ensures r.Err? && r.error.LoadFailed? ==>
              && Distinct(specs)
              && exists i :: 0 <= i < |specs| && specs[i].stored && !specs[i].loads && r.error.name == specs[i].name &&
                   forall j :: 0 <= j < i && specs[j].stored ==> specs[j].loads
      ensures r.Err? && r.error.BindFailed? ==>
              && Distinct(specs) && (forall i :: 0 <= i < |specs| && specs[i].stored ==> specs[i].loads)
              && exists i :: 0 <= i < |specs| && !specs[i].binds && r.error.name == specs[i].name &&
                   started == Names(specs[..i]) && forall j :: 0 <= j < i ==> specs[j].binds
      ensures r.Err? && r.error.ControlFailed? ==> started == Names(specs) && commandStarted
    {
      var duplicate := CheckNames(specs);
      if duplicate.Some? { return Err(duplicate.value); }

      var routes: set<string> := {};
      for i := 0 to |specs|
        invariant routes == StoredNames(specs[..i])
        invariant forall j :: 0 <= j < i ==> specs[j].stored ==> specs[j].loads
        invariant started == [] && joined == [] && !commandStarted && !commandJoined && !signalled
      {
        if specs[i].stored {
          if !specs[i].loads { return Err(LoadFailed(specs[i].name)); }
          routes := routes + {specs[i].name};
        }
        NamesGrow(specs, i);
      }
      assert specs[..|specs|] == specs;

      var registry: set<string> := {};
      for i := 0 to |specs|
        invariant started == Names(specs[..i]) && registry == NameSet(specs[..i])
        invariant forall j :: 0 <= j < i ==> specs[j].binds
        invariant joined == [] && !commandStarted && !commandJoined && !signalled
      {
        if !specs[i].binds {
          TearDown();
          return Err(BindFailed(specs[i].name));
        }
        NamesGrow(specs, i);
        assert Names(specs[..i + 1]) == Names(specs[..i]) + [specs[i].name];
        registry := registry + {specs[i].name};
        started := started + [specs[i].name];
      }

      commandStarted := true;
      if control.Some? && !control.value {
        TearDown();
        commandJoined := true;
        return Err(ControlFailed);
      }
      return Ok(Handle(started, registry, routes));
    }
  }
}
