/** The in-memory store of internal/fakes/db.go: a slice of records and an index from id to position. */
module FakeDb {
  import opened Wrappers
  import opened Keys

  datatype Record = Record(clientId: string, name: string, scopes: Option<seq<string>>, jwks: Option<seq<Jwk>>)

  datatype InsertRequest = InsertRequest(name: Option<string>, scopes: Option<seq<string>>)

  datatype DbError = InvalidName | AlreadyExists | NotFound | OutOfRange | Inconsistent

  /** A state of the store. `OutOfRange` and `Inconsistent` above are where the original panics. */
  datatype Store = Store(clients: seq<Record>, index: map<string, nat>)

  /** Index and slice describe each other. */
  ghost predicate Indexed(s: Store) {
    && (forall id :: id in s.index ==> s.index[id] < |s.clients| && s.clients[s.index[id]].clientId == id)
    && (forall i :: 0 <= i < |s.clients| ==> s.clients[i].clientId in s.index && s.index[s.clients[i].clientId] == i)
  }

  /** The first record of an id, read off the slice alone. */
  function Scan(clients: seq<Record>, id: string): Option<Record> {
    if clients == [] then None
    else if clients[0].clientId == id then Some(clients[0])
    else Scan(clients[1..], id)
  }

  function Lookup(s: Store, id: string): Result<Record, DbError> {
    if id !in s.index then Err(NotFound)
    else if s.index[id] >= |s.clients| then Err(OutOfRange)
    else if s.clients[s.index[id]].clientId != id then Err(Inconsistent)
    else Ok(s.clients[s.index[id]])
  }

  function Inserted(s: Store, r: Record): Store { Store(s.clients + [r], s.index[r.clientId := |s.clients|]) }

  function WithJwks(s: Store, i: nat, jwks: Option<seq<Jwk>>): Store
    requires i < |s.clients|
  {
    s.(clients := s.clients[i := s.clients[i].(jwks := jwks)])
  }

  /** The last record moves into the gap; its index entry stays as it was. */
  function Removed(s: Store, id: string): Store
    requires id in s.index && s.index[id] < |s.clients|
  {
    var last := |s.clients| - 1;
    Store(s.clients[s.index[id] := s.clients[last]][..last], s.index - {id})
  }

  class Db {
    var clients: seq<Record>
    var clientIdIndex: map<string, nat>

    function State(): Store
      reads this
    {
      Store(clients, clientIdIndex)
    }

    constructor ()
      ensures State() == Store([], map[])
    {
      clients, clientIdIndex := [], map[];
    }

    /** `generated` is the id the random source would give. */
    method Insert(req: InsertRequest, jwks: Option<seq<Jwk>>, overrideClientId: string, generated: string)
      returns (r: Result<Record, DbError>)
      modifies this
      ensures var id := if overrideClientId != "" then overrideClientId else generated;
              if req.name.None? || req.name.value == "" then r == Err(InvalidName) && State() == old(State())
              else if id in old(clientIdIndex) then r == Err(AlreadyExists) && State() == old(State())
              else r == Ok(Record(id, req.name.value, req.scopes, jwks)) && State() == Inserted(old(State()), r.value)
      ensures var id := if overrideClientId != "" then overrideClientId else generated;
              var name := if req.name.None? then "" else req.name.value;
              State() == Applied(old(State()), Insertion(Record(id, name, req.scopes, jwks)))
    {
      if req.name.None? || req.name.value == "" {
        return Err(InvalidName);
      }
      var clientId := if overrideClientId != "" then overrideClientId else generated;
      if clientId in clientIdIndex {
        return Err(AlreadyExists);
      }
      var record := Record(clientId, req.name.value, req.scopes, jwks);
      var idx := |clients|;
      clients := clients + [record];
      clientIdIndex := clientIdIndex[clientId := idx];
      return Ok(record);
    }

    method UpdateJwks(clientId: string, jwks: Option<seq<Jwk>>) returns (e: Option<DbError>)
      modifies this
      ensures if clientId !in old(clientIdIndex) then e == Some(NotFound) && State() == old(State())
              else if old(clientIdIndex)[clientId] >= |old(clients)| then e == Some(OutOfRange) && State() == old(State())
              else e == None && State() == WithJwks(old(State()), old(clientIdIndex)[clientId], jwks)
      ensures State() == Applied(old(State()), JwksUpdate(clientId, jwks))
    {
      if clientId !in clientIdIndex {
        return Some(NotFound);
      }
      var i := clientIdIndex[clientId];
      if i >= |clients| {
        return Some(OutOfRange);
      }
      clients := clients[i := clients[i].(jwks := jwks)];
      return None;
    }

    method Delete(clientId: string) returns (r: Result<bool, DbError>)
      modifies this
      ensures if clientId !in old(clientIdIndex) then r == Ok(false) && State() == old(State())
              else if old(clientIdIndex)[clientId] >= |old(clients)| then
                r == Err(OutOfRange) && State() == old(State()).(index := old(clientIdIndex) - {clientId})
              else r == Ok(true) && State() == Removed(old(State()), clientId)
      ensures State() == Applied(old(State()), Deletion(clientId))
    {
      if clientId !in clientIdIndex {
        return Ok(false);
      }
      var i := clientIdIndex[clientId];
      clientIdIndex := clientIdIndex - {clientId};
      if i >= |clients| {
        return Err(OutOfRange);
      }
      clients := clients[i := clients[|clients| - 1]];
      clients := clients[..|clients| - 1];
      return Ok(true);
    }

    method Get(clientId: string) returns (r: Result<Record, DbError>)
      ensures r == Lookup(State(), clientId)
    {
      if clientId !in clientIdIndex {
        return Err(NotFound);
      }
      var i := clientIdIndex[clientId];
      if i >= |clients| {
        return Err(OutOfRange);
      }
      if clients[i].clientId != clientId {
        return Err(Inconsistent);
      }
      return Ok(clients[i]);
    }

    method Query(predicate_: Record -> bool) returns (result: seq<Record>)
      ensures result == Matching(clients, predicate_)
    {
      result := [];
      var i := 0;
      while i < |clients|
        invariant i <= |clients|
        invariant result == Matching(clients[..i], predicate_)
      {
        assert clients[..i + 1] == clients[..i] + [clients[i]];
        if predicate_(clients[i]) {
          result := result + [clients[i]];
        }
        i := i + 1;
      }
      assert clients[..i] == clients;
    }
  }

  function Matching(clients: seq<Record>, p: Record -> bool): (r: seq<Record>)
    ensures forall c :: c in r <==> c in clients && p(c)
    ensures |r| <= |clients|
  {
    if clients == [] then []
    else
      var last := clients[|clients| - 1];
      assert clients == clients[..|clients| - 1] + [last];
      var front := Matching(clients[..|clients| - 1], p);
      if p(last) then front + [last] else front
  }

  /** The records that match, in the order of the slice, each as often as it is there. */
  lemma MatchingOneMore(clients: seq<Record>, r: Record, p: Record -> bool)
    ensures Matching([], p) == []
    ensures Matching(clients + [r], p) == Matching(clients, p) + if p(r) then [r] else []
  {
    assert (clients + [r])[..|clients|] == clients;
  }

  lemma {:induction false} ScanMeaning(clients: seq<Record>, id: string)
    ensures Scan(clients, id).None? <==> forall i :: 0 <= i < |clients| ==> clients[i].clientId != id
    ensures Scan(clients, id).Some? ==> exists i ::
                0 <= i < |clients| && clients[i] == Scan(clients, id).value && clients[i].clientId == id
                && forall j :: 0 <= j < i ==> clients[j].clientId != id
  {
    if clients != [] && clients[0].clientId != id {
      ScanMeaning(clients[1..], id);
      if Scan(clients[1..], id).Some? {
        var i :| 0 <= i < |clients[1..]| && clients[1..][i] == Scan(clients[1..], id).value && clients[1..][i].clientId == id
                 && forall j :: 0 <= j < i ==> clients[1..][j].clientId != id;
        assert clients[i + 1] == Scan(clients, id).value;
        assert forall j :: 1 <= j < i + 1 ==> clients[j] == clients[1..][j - 1];
      } else {
        assert forall i :: 1 <= i < |clients| ==> clients[i] == clients[1..][i - 1];
      }
    }
  }

  /** While index and slice describe each other, looking an id up is scanning for it. */
  lemma LookupIsScan(s: Store, id: string)
    requires Indexed(s)
    ensures Lookup(s, id) == match Scan(s.clients, id) case Some(r) => Ok(r) case None => Err(NotFound)
  {
    ScanMeaning(s.clients, id);
  }

  lemma InsertKeepsIndexed(s: Store, r: Record)
    requires Indexed(s) && r.clientId !in s.index
    ensures Indexed(Inserted(s, r)) && Lookup(Inserted(s, r), r.clientId) == Ok(r)
    ensures forall id :: id != r.clientId ==> Lookup(Inserted(s, r), id) == Lookup(s, id)
  {
  }

  lemma UpdateKeepsIndexed(s: Store, id: string, jwks: Option<seq<Jwk>>)
    requires Indexed(s) && id in s.index
    ensures var z := WithJwks(s, s.index[id], jwks);
            && Indexed(z)
            && Lookup(z, id) == Ok(Lookup(s, id).value.(jwks := jwks))
            && forall other :: other != id ==> Lookup(z, other) == Lookup(s, other)
  {
  }

  /** Deleting a record keeps index and slice in step exactly when the record is the last one. */
  lemma DeleteKeepsIndexedIffLast(s: Store, id: string)
    requires Indexed(s) && id in s.index
    ensures Indexed(Removed(s, id)) <==> s.index[id] == |s.clients| - 1
  {
    var z := Removed(s, id);
    var last := |s.clients| - 1;
    var moved := s.clients[last].clientId;
    if s.index[id] == last {
      assert z.clients == s.clients[..last];
    } else {
      assert z.index[moved] == last >= |z.clients|;
    }
  }

  /** The slice itself is right either way: every other id is still found by scanning, with its record,
      and the deleted one is not. */
  lemma DeleteKeepsRecords(s: Store, id: string)
    requires Indexed(s) && id in s.index
    ensures var z := Removed(s, id);
            && Scan(z.clients, id).None?
            && forall other :: other != id ==> Scan(z.clients, other) == Scan(s.clients, other)
  {
    var z := Removed(s, id);
    forall other
      ensures Scan(z.clients, other) == if other == id then None else Scan(s.clients, other)
    {
      RecordsAfterDelete(s, id);
      ScanMeaning(z.clients, other);
      ScanMeaning(s.clients, other);
      if other != id && Scan(s.clients, other).Some? {
        ScanFindsTheOnly(z.clients, Scan(s.clients, other).value);
      }
    }
  }

  lemma ScanFindsTheOnly(clients: seq<Record>, r: Record)
    requires r in clients && forall q :: q in clients && q.clientId == r.clientId ==> q == r
    ensures Scan(clients, r.clientId) == Some(r)
  {
    ScanMeaning(clients, r.clientId);
  }

  lemma RecordsAfterDelete(s: Store, id: string)
    requires Indexed(s) && id in s.index
    ensures var z := Removed(s, id);
            && (forall i :: 0 <= i < |z.clients| ==> z.clients[i] in s.clients && z.clients[i].clientId != id)
            && (forall r :: r in s.clients && r.clientId != id ==> r in z.clients)
            && (forall r, q :: r in s.clients && q in s.clients && r.clientId == q.clientId ==> r == q)
  {
    var z := Removed(s, id);
    var gap, last := s.index[id], |s.clients| - 1;
    forall r | r in s.clients && r.clientId != id ensures r in z.clients {
      var i :| 0 <= i < |s.clients| && s.clients[i] == r;
      if i < last { assert z.clients[i] == r; } else { assert z.clients[gap] == r; }
    }
  }

  /** After deleting a record that is not the last, the moved record is still there, but looking its id
      up, or updating it, runs past the end of the slice. */
  lemma DeleteStrandsTheLast(s: Store, id: string)
    requires Indexed(s) && id in s.index && s.index[id] < |s.clients| - 1
    ensures var moved := s.clients[|s.clients| - 1];
            var z := Removed(s, id);
            moved in z.clients && Scan(z.clients, moved.clientId) == Some(moved) && Lookup(z, moved.clientId) == Err(OutOfRange)
  {
    var z := Removed(s, id);
    var last := |s.clients| - 1;
    assert z.clients[s.index[id]] == s.clients[last];
    DeleteKeepsRecords(s, id);
    ScanMeaning(s.clients, s.clients[last].clientId);
  }

  // ---- sequences of operations ----

  datatype Op = Insertion(r: Record) | JwksUpdate(id: string, jwks: Option<seq<Jwk>>) | Deletion(id: string)

  /** What an operation leaves, refused and panicking ones included. */
  function Applied(s: Store, op: Op): Store {
    match op
    case Insertion(r) => if r.name == "" || r.clientId in s.index then s else Inserted(s, r)
    case JwksUpdate(id, jwks) =>
      if id !in s.index || s.index[id] >= |s.clients| then s else WithJwks(s, s.index[id], jwks)
    case Deletion(id) =>
      if id !in s.index then s
      else if s.index[id] >= |s.clients| then s.(index := s.index - {id})
      else Removed(s, id)
  }

  function AppliedAll(s: Store, ops: seq<Op>): Store {
    if ops == [] then s else Applied(AppliedAll(s, ops[..|ops| - 1]), ops[|ops| - 1])
  }

  /** Every deletion that finds its record finds it at the end. */
  predicate LastOrAbsent(s: Store, op: Op) {
    op.Deletion? && op.id in s.index ==> s.index[op.id] == |s.clients| - 1
  }

  lemma StepKeepsIndexedIff(s: Store, op: Op)
    requires Indexed(s)
    ensures Indexed(Applied(s, op)) <==> LastOrAbsent(s, op)
  {
    match op
    case Insertion(r) => if r.clientId !in s.index { InsertKeepsIndexed(s, r); }
    case JwksUpdate(id, jwks) => if id in s.index { UpdateKeepsIndexed(s, id, jwks); }
    case Deletion(id) => if id in s.index { DeleteKeepsIndexedIffLast(s, id); }
  }

  /** After each operation, from the first to the last. */
  ghost predicate IndexedThroughout(s: Store, ops: seq<Op>) {
    Indexed(AppliedAll(s, ops)) && (ops != [] ==> IndexedThroughout(s, ops[..|ops| - 1]))
  }

  predicate OnlyLastDeleted(s: Store, ops: seq<Op>) {
    ops != [] ==>
      var most := ops[..|ops| - 1];
      OnlyLastDeleted(s, most) && LastOrAbsent(AppliedAll(s, most), ops[|ops| - 1])
  }

  /** Over any sequence of operations index and slice stay in step throughout exactly when every deletion
      that finds its record finds it at the end of the slice. */
  lemma {:induction false} IndexedThroughoutIff(s: Store, ops: seq<Op>)
    requires Indexed(s)
    ensures IndexedThroughout(s, ops) <==> OnlyLastDeleted(s, ops)
  {
    if ops != [] {
      var most := ops[..|ops| - 1];
      IndexedThroughoutIff(s, most);
      if IndexedThroughout(s, most) { StepKeepsIndexedIff(AppliedAll(s, most), ops[|ops| - 1]); }
    }
  }

  /** The store as it is meant: a map from ids to records. */
  function AppliedToMap(m: map<string, Record>, op: Op): map<string, Record> {
    match op
    case Insertion(r) => if r.name == "" || r.clientId in m then m else m[r.clientId := r]
    case JwksUpdate(id, jwks) => if id !in m then m else m[id := m[id].(jwks := jwks)]
    case Deletion(id) => m - {id}
  }

  function AllAppliedToMap(m: map<string, Record>, ops: seq<Op>): map<string, Record> {
    if ops == [] then m else AppliedToMap(AllAppliedToMap(m, ops[..|ops| - 1]), ops[|ops| - 1])
  }

  ghost predicate Represents(s: Store, m: map<string, Record>) {
    forall id :: Lookup(s, id) == if id in m then Ok(m[id]) else Err(NotFound)
  }

  lemma StepIsOnMap(s: Store, m: map<string, Record>, op: Op)
    requires Indexed(s) && Represents(s, m) && LastOrAbsent(s, op)
    ensures Represents(Applied(s, op), AppliedToMap(m, op))
  {
    match op
    case Insertion(r) =>
      assert r.clientId in m <==> Lookup(s, r.clientId).Ok?;
      if r.clientId !in s.index { InsertKeepsIndexed(s, r); }
    case JwksUpdate(id, jwks) =>
      assert id in m <==> Lookup(s, id).Ok?;
      if id in s.index { UpdateKeepsIndexed(s, id, jwks); }
    case Deletion(id) =>
      assert id in m <==> Lookup(s, id).Ok?;
      if id in s.index {
        DeleteKeepsIndexedIffLast(s, id);
        forall other ensures Lookup(Removed(s, id), other) == if other == id then Err(NotFound) else Lookup(s, other) {
          assert Removed(s, id).clients == s.clients[..|s.clients| - 1];
        }
      }
  }

  /** As long as that is so, every lookup answers what the map would. */
  lemma {:induction false} StoreIsAMap(ops: seq<Op>)
    requires OnlyLastDeleted(Store([], map[]), ops)
    ensures Indexed(AppliedAll(Store([], map[]), ops))
    ensures Represents(AppliedAll(Store([], map[]), ops), AllAppliedToMap(map[], ops))
  {
    if ops != [] {
      var most, last := ops[..|ops| - 1], ops[|ops| - 1];
      StoreIsAMap(most);
      var s := AppliedAll(Store([], map[]), most);
      StepKeepsIndexedIff(s, last);
      StepIsOnMap(s, AllAppliedToMap(map[], most), last);
    }
  }

  /** What a stale entry does after the next insertion: looking up or updating an id then hits another
      client's record exactly when the deleted record was not the last and the id is the moved one's; it is
      the new record that is hit, and an update silently overwrites its keys. */
  lemma StaleEntryHitsTheNext(s: Store, id: string, r: Record, used: string, jwks: Option<seq<Jwk>>)
    requires Indexed(s) && id in s.index && r.clientId !in Removed(s, id).index
    requires used in Inserted(Removed(s, id), r).index
    ensures var z := Inserted(Removed(s, id), r);
            var last := |s.clients| - 1;
            var wrong := s.index[id] != last && used == s.clients[last].clientId;
            && z.index[used] < |z.clients|
            && (z.clients[z.index[used]].clientId != used <==> wrong)
            && (Lookup(z, used) == Err(Inconsistent) <==> wrong)
            && (wrong ==> Applied(z, JwksUpdate(used, jwks)).clients == Removed(s, id).clients + [r.(jwks := jwks)])
  {
    var z, last := Inserted(Removed(s, id), r), |s.clients| - 1;
    assert Removed(s, id).clients == s.clients[s.index[id] := s.clients[last]][..last];
    if used != r.clientId {
      assert z.index[used] == s.index[used];
    }
  }
}
