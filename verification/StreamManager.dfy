/** The table of live streams: first registration wins, cleanup evicts and reports. */
module StreamManagement {
  import opened Words
  import opened Reassembly

  const TWO_MINUTES := 120_000_000_000

  predicate Expired(v: View, now: int, stall: int, maxAge: int) {
    Terminal(v.state) || Stale(v, now, stall, maxAge)
  }

  ghost predicate Separate(table: map<Id, Stream>) {
    forall a, b :: a in table && b in table && a != b ==> table[a] != table[b]
  }

  ghost function Views(table: map<Id, Stream>): map<Id, View>
    reads table.Values
  {
    map k | k in table :: table[k].Look()
  }

  class StreamManager {
    var streams: map<Id, Stream>
    var maxStreamAge: int
    var stallTimeout: int

    /** Distinct ids hold distinct streams, and a managed stream is never a destroyed one. */
    ghost predicate Valid()
      reads this, streams.Values
    {
      && Separate(streams)
      && (forall a :: a in streams ==> !streams[a].destroyed)
    }

    function StallLimit(): (limit: int)
      reads this
      ensures stallTimeout > 0 ==> limit == stallTimeout
      ensures stallTimeout <= 0 ==> limit == 120 * 1_000_000_000
    {
      if stallTimeout <= 0 then TWO_MINUTES else stallTimeout
    }

    constructor ()
      ensures Valid() && streams == map[]
      ensures maxStreamAge == 300 * 1_000_000_000 && StallLimit() == 120 * 1_000_000_000
    {
      streams := map[];
      maxStreamAge := 300_000_000_000;
      stallTimeout := TWO_MINUTES;
    }

    method EnsureStream(id: Id, onComplete: bool, onError: bool, now: int) returns (s: Stream)
      requires Valid()
      modifies this
      ensures Valid()
      ensures maxStreamAge == old(maxStreamAge) && stallTimeout == old(stallTimeout)
      ensures id in old(streams) ==> s == old(streams[id]) && streams == old(streams)
      ensures id !in old(streams) ==> fresh(s) && s.Look() == Fresh(Active, onComplete, onError, now)
      ensures streams == old(streams)[id := s]
    {
      if id in streams {
        return streams[id];
      }
      s := new Stream(now);
      s.state := Active;
      s.hasOnComplete := onComplete;
      s.hasOnError := onError;
      streams := streams[id := s];
    }

    /** A chunk for an unknown stream is dropped; a known stream never hits its nil-map panic. */
    method AddChunk(id: Id, sequence: int, data: bytes, isLast: bool, now: int)
      requires Valid()
      modifies streams.Values
      ensures Valid()
      ensures id in streams ==>
        streams[id].Look() == Add(old(streams[id].Look()), Chunk(ToU32(sequence), data, isLast), now)
      ensures forall k :: k in streams && k != id ==> streams[k].Look() == old(streams[k].Look())
    {
      if id !in streams {
        return;
      }
      var s := streams[id];
      ghost var before := s.Look();
      s.AddChunk(ToU32(sequence), data, isLast, now);
      AddKeepsAlive(before, Chunk(ToU32(sequence), data, isLast), now);
      assert !s.destroyed;
    }

    method RemoveStream(id: Id)
      requires Valid()
      modifies this, if id in streams then {streams[id]} else {}
      ensures Valid()
      ensures maxStreamAge == old(maxStreamAge) && stallTimeout == old(stallTimeout)
      ensures streams == old(streams) - {id}
      ensures id in old(streams) ==> old(streams[id]).Look() == DoDestroy(old(streams[id].Look()))
      ensures forall k :: k in streams ==> streams[k].Look() == old(streams[k].Look())
    {
      if id in streams {
        streams[id].Destroy();
        streams := streams - {id};
      }
    }

    /** One stream's turn of the cleanup pass. */
    method SweepOne(id: Id, now: int)
      requires Valid() && id in streams
      modifies this, streams[id]
      ensures Valid()
      ensures maxStreamAge == old(maxStreamAge) && stallTimeout == old(stallTimeout)
      ensures old(streams[id]).Look() == Sweep(old(streams[id].Look()), now, old(StallLimit()), maxStreamAge)
      ensures streams ==
        if Expired(old(streams[id].Look()), now, old(StallLimit()), maxStreamAge)
        then old(streams) - {id} else old(streams)
    {
      var stream := streams[id];
      var completedOrErr := stream.state == Completed || stream.state == Errored;
      var stale := !completedOrErr
                   && (now - stream.lastActivity > StallLimit() || now - stream.createdAt > maxStreamAge);
      if stale {
        stream.state := Errored;
        if stream.hasOnError {
          stream.evictions := stream.evictions + 1;
        }
      }
      if completedOrErr || stale {
        RemoveStream(id);
      }
    }

    /** The same turn, seen on the whole table the pass started from: no other stream is touched. */
    method SweepTurn(id: Id, now: int, ghost table: map<Id, Stream>)
      requires Valid() && id in streams && Separate(table)
      requires id in table && streams[id] == table[id]
      modifies this, streams[id]
      ensures Valid()
      ensures maxStreamAge == old(maxStreamAge) && stallTimeout == old(stallTimeout)
      ensures table[id].Look() == Sweep(old(table[id].Look()), now, old(StallLimit()), maxStreamAge)
      ensures Views(table) == old(Views(table))[id := table[id].Look()]
      ensures streams ==
        if Expired(old(table[id].Look()), now, old(StallLimit()), maxStreamAge)
        then old(streams) - {id} else old(streams)
    {
      hide Sweep, Expired;
      SweepOne(id, now);
    }

    /** The pass that removes finished streams and evicts stalled ones, reporting each eviction once. */
    method Cleanup(now: int)
      requires Valid()
      modifies this, streams.Values
      ensures Valid()
      ensures forall k :: k in old(streams) ==>
        Views(old(streams))[k] == Sweep(old(Views(streams))[k], now, old(StallLimit()), old(maxStreamAge))
      ensures forall k :: k in streams <==>
        k in old(streams) && !Expired(old(Views(streams))[k], now, old(StallLimit()), old(maxStreamAge))
      ensures forall k :: k in streams ==> streams[k] == old(streams[k])
    {
      ghost var table, stall, maxAge := streams, StallLimit(), maxStreamAge;
      ghost var views := Views(streams);
      var ids := streams.Keys;
      while ids != {}
        invariant Valid() && StallLimit() == stall && maxStreamAge == maxAge
        invariant ids <= table.Keys == views.Keys
        invariant Views(table) == PartlySwept(views, ids, now, stall, maxAge)
        invariant streams == Remaining(table, views, ids, now, stall, maxAge)
        decreases ids
      {
        var id :| id in ids;
        PartlySweptTurn(views, ids, id, now, stall, maxAge);
        RemainingTurn(table, views, ids, id, now, stall, maxAge);
        assert table[id].Look() == Views(table)[id] == views[id];
        SweepTurn(id, now, table);
        ids := ids - {id};
      }
    }
  }

  /** The views once every stream outside `todo` has had its turn. */
  ghost function PartlySwept(views: map<Id, View>, todo: set<Id>, now: int, stall: int, maxAge: int): map<Id, View> {
    map k | k in views :: if k in todo then views[k] else Sweep(views[k], now, stall, maxAge)
  }

  /** The table once every stream outside `todo` has had its turn. */
  ghost function Remaining(table: map<Id, Stream>, views: map<Id, View>, todo: set<Id>,
                           now: int, stall: int, maxAge: int): map<Id, Stream>
    requires table.Keys == views.Keys
  {
    map k | k in table && (k in todo || !Expired(views[k], now, stall, maxAge)) :: table[k]
  }

  lemma RemainingTurn(table: map<Id, Stream>, views: map<Id, View>, todo: set<Id>, id: Id,
                      now: int, stall: int, maxAge: int)
    requires table.Keys == views.Keys && id in todo && id in views
    ensures var rest := Remaining(table, views, todo, now, stall, maxAge);
      && id in rest && rest[id] == table[id]
      && Remaining(table, views, todo - {id}, now, stall, maxAge)
         == if Expired(views[id], now, stall, maxAge) then rest - {id} else rest
  {
  }

  lemma PartlySweptTurn(views: map<Id, View>, todo: set<Id>, id: Id, now: int, stall: int, maxAge: int)
    requires id in todo && id in views
    ensures PartlySwept(views, todo, now, stall, maxAge)[id := Sweep(views[id], now, stall, maxAge)]
         == PartlySwept(views, todo - {id}, now, stall, maxAge)
    ensures PartlySwept(views, todo, now, stall, maxAge)[id] == views[id]
  {
  }

  lemma {:induction false} DrainKeepsAlive(v: View)
    ensures Drain(v).destroyed == v.destroyed
    decreases |v.chunks|
  {
    if v.expected in v.chunks && !Ends(Take(v), v.chunks[v.expected]) {
      DrainKeepsAlive(Take(v));
    }
  }

  lemma AddKeepsAlive(v: View, c: Chunk, now: int)
    ensures Add(v, c, now).destroyed == v.destroyed
  {
    DrainKeepsAlive(Store(v, c, now));
  }
}
