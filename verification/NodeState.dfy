/** A node's view of the cluster (internal/nodestate/state.go): all nodes, who it believes to be the master
    and which nodes its heartbeat has marked alive.  `alive` holds the IDs that the source maps to true. */
module NodeState {
  import opened Common

  datatype Node = Node(id: int, name: string)

  function PeersOf(all: seq<Node>, self: int): seq<Node> {
    if all == [] then []
    else (if all[0].id != self then [all[0]] else []) + PeersOf(all[1..], self)
  }

  function AlivePeersOf(all: seq<Node>, self: int, alive: set<int>): seq<Node> {
    if all == [] then []
    else (if all[0].id != self && all[0].id in alive then [all[0]] else []) + AlivePeersOf(all[1..], self, alive)
  }

  lemma {:induction false} PeersExtend(all: seq<Node>, self: int, i: nat)
    requires i < |all|
    ensures PeersOf(all[..i + 1], self) == PeersOf(all[..i], self) + if all[i].id != self then [all[i]] else []
    decreases i
  {
    if i == 0 {
      assert all[..1] == [all[0]] && all[..1][1..] == [] && all[..0] == [];
    } else {
      PeersExtend(all[1..], self, i - 1);
      assert all[..i + 1][1..] == all[1..][..i] && all[..i][1..] == all[1..][..i - 1];
    }
  }

  lemma {:induction false} AlivePeersExtend(all: seq<Node>, self: int, alive: set<int>, i: nat)
    requires i < |all|
    ensures AlivePeersOf(all[..i + 1], self, alive)
            == AlivePeersOf(all[..i], self, alive) + if all[i].id != self && all[i].id in alive then [all[i]] else []
    decreases i
  {
    if i == 0 {
      assert all[..1] == [all[0]] && all[..1][1..] == [] && all[..0] == [];
    } else {
      AlivePeersExtend(all[1..], self, alive, i - 1);
      assert all[..i + 1][1..] == all[1..][..i] && all[..i][1..] == all[1..][..i - 1];
    }
  }

  /** Exactly the other nodes, each once, in configuration order. */
  lemma {:induction false} PeersExact(all: seq<Node>, self: int)
    requires forall i, j :: 0 <= i < j < |all| ==> all[i].id != all[j].id
    ensures var out := PeersOf(all, self);
            && (forall n :: n in out <==> n in all && n.id != self)
            && (forall i, j :: 0 <= i < j < |out| ==> out[i].id != out[j].id)
    decreases |all|
  {
    if all == [] {
    } else {
      PeersExact(all[1..], self);
      var rest := PeersOf(all[1..], self);
      assert forall n :: n in all <==> n == all[0] || n in all[1..];
      forall i | 0 <= i < |rest| ensures rest[i].id != all[0].id {
        assert rest[i] in rest;
      }
    }
  }

  /** Exactly the live peers, each once, in configuration order. */
  lemma {:induction false} AlivePeersExact(all: seq<Node>, self: int, alive: set<int>)
    requires forall i, j :: 0 <= i < j < |all| ==> all[i].id != all[j].id
    ensures var out := AlivePeersOf(all, self, alive);
            && (forall n :: n in out <==> n in all && n.id != self && n.id in alive)
            && (forall i, j :: 0 <= i < j < |out| ==> out[i].id != out[j].id)
    decreases |all|
  {
    if all != [] {
      AlivePeersExact(all[1..], self, alive);
      var rest := AlivePeersOf(all[1..], self, alive);
      var head := if all[0].id != self && all[0].id in alive then [all[0]] else [];
      forall n ensures n in head + rest <==> n in all && n.id != self && n.id in alive {
        assert n in all <==> n == all[0] || n in all[1..];
        assert n in head + rest <==> n in head || n in rest;
      }
      forall i, j | 0 <= i < j < |head + rest| ensures (head + rest)[i].id != (head + rest)[j].id {
        if i < |head| {
          var other := (head + rest)[j];
          assert other in rest;
          assert other in all[1..];
        }
      }
    }
  }

  class State {
    const self: Node
    const all: seq<Node>
    var masterID: int
    var alive: set<int>

    constructor (self: Node, all: seq<Node>, masterID: int)
      ensures this.self == self && this.all == all && this.masterID == masterID
      ensures alive == set i | 0 <= i < |all| :: all[i].id
    {
      this.self, this.all, this.masterID := self, all, masterID;
      alive := set i | 0 <= i < |all| :: all[i].id;
    }

    method Peers() returns (out: seq<Node>)
      ensures out == PeersOf(all, self.id)
    {
      out := [];
      for i := 0 to |all|
        invariant out == PeersOf(all[..i], self.id)
      {
        PeersExtend(all, self.id, i);
        if all[i].id != self.id {
          out := out + [all[i]];
        }
      }
      assert all[..|all|] == all;
    }

    method AlivePeers() returns (out: seq<Node>)
      ensures out == AlivePeersOf(all, self.id, alive)
    {
      out := [];
      for i := 0 to |all|
        invariant out == AlivePeersOf(all[..i], self.id, alive)
      {
        AlivePeersExtend(all, self.id, alive, i);
        if all[i].id != self.id && all[i].id in alive {
          out := out + [all[i]];
        }
      }
      assert all[..|all|] == all;
    }

    method MarkAlive(id: int)
      modifies this`alive
      ensures alive == old(alive) + {id}
    {
      alive := alive + {id};
    }

    method MarkDead(id: int)
      modifies this`alive
      ensures alive == old(alive) - {id}
    {
      alive := alive - {id};
    }

    method SetMasterID(id: int)
      modifies this`masterID
      ensures masterID == id
    {
      masterID := id;
    }

    predicate IsMaster()
      reads this`masterID
    {
      self.id == masterID
    }

    /** The node with the master's ID, when the configuration has one. */
    method GetMasterNode() returns (master: Option<Node>)
      ensures master.Some? ==> master.value in all && master.value.id == masterID
      ensures master.None? ==> forall n :: n in all ==> n.id != masterID
    {
      master := None;
      for i := 0 to |all|
        invariant master.None? && forall j :: 0 <= j < i ==> all[j].id != masterID
      {
        if all[i].id == masterID {
          return Some(all[i]);
        }
      }
    }

    /** Messages name their sender; names are unique, so the reply goes to the node that sent. */
    method NodeByName(name: string) returns (found: Option<Node>)
      ensures found.Some? ==> found.value in all && found.value.name == name
      ensures found.None? ==> forall n :: n in all ==> n.name != name
    {
      found := None;
      for i := 0 to |all|
        invariant found.None? && forall j :: 0 <= j < i ==> all[j].name != name
      {
        if all[i].name == name {
          return Some(all[i]);
        }
      }
    }
  }
}
