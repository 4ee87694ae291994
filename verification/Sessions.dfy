/**
 The server's session table: one row per address and an index from client UUID to
 address, with the acknowledgement rule of the cursor stream.
 */
module Sessions {
  import opened Common

  type Address = nat

  type Uuid = string

  datatype Role = Unspecified | Producer | CursorSubscriber

  datatype Session = Session(
    address: Address, uuid: Uuid, lastSeen: real, role: Role, subscribed: bool, requestedHz: real, eventAck: nat, epoch: Bytes)

  type Table = map<Address, Session>

  type Index = map<Uuid, Address>

  function NewSession(address: Address, uuid: Uuid, role: Role, now: real): Session {
    Session(address, uuid, now, role, false, 30.0, 0, [])
  }

  /** A reliable batch is acknowledged only in order and only in the epoch the publisher announced. */
  predicate AckAccepted(row: Session, epoch: Option<Bytes>, sequence: nat) {
    row.role == CursorSubscriber && row.subscribed && epoch == Some(row.epoch) && sequence == row.eventAck + 1
  }

  function Acknowledge(row: Session, epoch: Option<Bytes>, sequence: nat): Session {
    if AckAccepted(row, epoch, sequence) then row.(eventAck := sequence) else row
  }

  /** The row after a list of acknowledgements, of whatever epochs and numbers. */
  function AcknowledgeAll(row: Session, acks: seq<(Option<Bytes>, nat)>): Session {
    if acks == [] then row
    else
      var last := acks[|acks| - 1];
      Acknowledge(AcknowledgeAll(row, acks[..|acks| - 1]), last.0, last.1)
  }

  /**
   Whatever acknowledgements arrive, in whatever order: the counter never falls, nothing else of the row changes, and
   every number it has passed was itself acknowledged, in the row's epoch and by a subscribed cursor subscriber.
   */
  lemma {:induction false} CounterCovered(row: Session, acks: seq<(Option<Bytes>, nat)>)
    ensures var after := AcknowledgeAll(row, acks);
            && row.eventAck <= after.eventAck && after == row.(eventAck := after.eventAck)
            && (row.eventAck < after.eventAck ==> row.role == CursorSubscriber && row.subscribed)
            && forall n :: row.eventAck < n <= after.eventAck ==> (Some(row.epoch), n) in acks
  {
    if acks != [] {
      var init, last := acks[..|acks| - 1], acks[|acks| - 1];
      CounterCovered(row, init);
      assert acks == init + [last];
    }
  }

  /** Acknowledgements that come in order are all accepted. */
  lemma {:induction false} InOrderAccepted(row: Session, count: nat)
    requires row.role == CursorSubscriber && row.subscribed
    ensures AcknowledgeAll(row, seq(count, i => (Some(row.epoch), row.eventAck + 1 + i))).eventAck == row.eventAck + count
  {
    if count > 0 {
      var acks := seq(count, i => (Some(row.epoch), row.eventAck + 1 + i));
      var init := seq(count - 1, i => (Some(row.epoch), row.eventAck + 1 + i));
      assert acks[..count - 1] == init;
      InOrderAccepted(row, count - 1);
      CounterCovered(row, init);
    }
  }

  /** A new session accepts no acknowledgement until it has subscribed. */
  lemma NewSessionRefuses(address: Address, uuid: Uuid, role: Role, now: real, acks: seq<(Option<Bytes>, nat)>)
    ensures AcknowledgeAll(NewSession(address, uuid, role, now), acks) == NewSession(address, uuid, role, now)
  {
    CounterCovered(NewSession(address, uuid, role, now), acks);
  }

  function AnnounceEpoch(row: Session, epoch: Bytes): Session {
    if row.role == CursorSubscriber then row.(epoch := epoch) else row
  }

  /** Every row is reachable from its client's UUID, so no client has two rows. */
  ghost predicate Indexed(table: Table, index: Index) {
    forall a :: a in table ==> table[a].address == a && table[a].uuid in index && index[table[a].uuid] == a
  }

  /** Index entries that lead nowhere or to another client's row. */
  ghost predicate Dangling(table: Table, index: Index, uuid: Uuid) {
    uuid in index && (index[uuid] !in table || table[index[uuid]].uuid != uuid)
  }

  ghost predicate NoDangling(table: Table, index: Index) {
    forall uuid :: uuid in index ==> !Dangling(table, index, uuid)
  }

  function TableAfterHandshake(table: Table, index: Index, address: Address, uuid: Uuid, role: Role, now: real): Table {
    (if uuid in index then table - {index[uuid]} else table)[address := NewSession(address, uuid, role, now)]
  }

  /** A handshake keeps every row indexed, whoever held the address before. */
  lemma HandshakeKeepsIndexed(table: Table, index: Index, address: Address, uuid: Uuid, role: Role, now: real)
    requires Indexed(table, index)
    ensures Indexed(TableAfterHandshake(table, index, address, uuid, role, now), index[uuid := address])
  {
    var after := TableAfterHandshake(table, index, address, uuid, role, now);
    forall a | a in after && a != address
      ensures after[a].uuid != uuid
    {
      assert a in table && after[a] == table[a];
    }
  }

  /** The index stays exact exactly when the address was free or already this client's. */
  lemma HandshakeExactIff(table: Table, index: Index, address: Address, uuid: Uuid, role: Role, now: real)
    requires Indexed(table, index) && NoDangling(table, index)
    ensures NoDangling(TableAfterHandshake(table, index, address, uuid, role, now), index[uuid := address])
            <==> (address !in table || table[address].uuid == uuid)
  {
    var after, byUuid := TableAfterHandshake(table, index, address, uuid, role, now), index[uuid := address];
    if address in table && table[address].uuid != uuid {
      var displaced := table[address].uuid;
      assert displaced in byUuid && byUuid[displaced] == address && after[address].uuid == uuid;
      assert Dangling(after, byUuid, displaced);
    } else {
      forall u | u in byUuid
        ensures !Dangling(after, byUuid, u)
      {
        if u != uuid {
          assert !Dangling(table, index, u);
          assert table[index[u]].uuid == u;
        }
      }
    }
  }

  /** For example, client "b" taking over the address of client "a" leaves "a" in the index. */
  lemma TakenAddressDangles(role: Role, now: real)
    ensures var table, index: Index := map[1 := NewSession(1, "a", role, now)], map["a" := 1];
            && Indexed(table, index) && NoDangling(table, index)
            && !NoDangling(TableAfterHandshake(table, index, 1, "b", role, now), index["b" := 1])
  {
    HandshakeExactIff(map[1 := NewSession(1, "a", role, now)], map["a" := 1], 1, "b", role, now);
  }

  /** Rows that are neither the address's nor the client's survive a handshake exactly when the index entry is not dangling. */
  lemma HandshakeEvictsIff(table: Table, index: Index, address: Address, uuid: Uuid, role: Role, now: real, other: Address)
    requires Indexed(table, index) && other in table && other != address && table[other].uuid != uuid
    ensures other !in TableAfterHandshake(table, index, address, uuid, role, now)
            <==> Dangling(table, index, uuid) && index[uuid] == other
  {
  }

  /** The rows idle for longer than the timeout, and their clients. */
  function ExpiredOf(table: Table, now: real, timeout: real): map<Address, Uuid> {
    map a | a in table && now - table[a].lastSeen > timeout :: table[a].uuid
  }

  lemma ExpiredClients(table: Table, now: real, timeout: real)
    ensures ExpiredOf(table, now, timeout).Values == set a | a in table && now - table[a].lastSeen > timeout :: table[a].uuid
  {
    var expired := ExpiredOf(table, now, timeout);
    forall a | a in expired
      ensures table[a].uuid in expired.Values
    {
      assert expired[a] == table[a].uuid;
    }
  }

  /**
   The two halves of a sweep are two critical sections.  Whatever comes between them, the rows left stay
   indexed exactly when none of them is of a client that was collected: it has not come back elsewhere.
   */
  lemma SweepKeepsIndexedIff(table: Table, index: Index, expired: map<Address, Uuid>)
    requires Indexed(table, index)
    ensures Indexed(table - expired.Keys, index - expired.Values)
            <==> forall a :: a in table && a !in expired ==> table[a].uuid !in expired.Values
  {
    var left, found := table - expired.Keys, index - expired.Values;
    if a :| a in table && a !in expired && table[a].uuid in expired.Values {
      assert a in left && left[a].uuid !in found;
    }
  }

  /** For example a client that expires at address 1 and comes back at 2 in between is left without an index entry. */
  lemma MovedClientUnindexed(role: Role, now: real, timeout: real)
    requires timeout >= 0.0
    ensures var table, index: Index := map[1 := NewSession(1, "a", role, now - timeout - 1.0)], map["a" := 1];
            var expired := ExpiredOf(table, now, timeout);
            var moved, byUuid := TableAfterHandshake(table, index, 2, "a", role, now), index["a" := 2];
            && Indexed(table, index) && Indexed(moved, byUuid)
            && !Indexed(moved - expired.Keys, byUuid - expired.Values) && 2 in moved - expired.Keys
  {
    var table, index: Index := map[1 := NewSession(1, "a", role, now - timeout - 1.0)], map["a" := 1];
    var expired := ExpiredOf(table, now, timeout);
    var moved, byUuid := TableAfterHandshake(table, index, 2, "a", role, now), index["a" := 2];
    assert expired[1] == "a" && "a" in expired.Values;
    SweepKeepsIndexedIff(moved, byUuid, expired);
    assert 2 in moved && 2 !in expired && moved[2].uuid == "a";
  }

  class SessionState {
    var byAddress: Table
    var byUuid: Index

    constructor ()
      ensures byAddress == map[] && byUuid == map[]
    {
      byAddress, byUuid := map[], map[];
    }

    ghost predicate Valid()
      reads this
    {
      Indexed(byAddress, byUuid)
    }

    method SetSession(address: Address, uuid: Uuid, role: Role, now: real)
      requires Valid()
      modifies this
      ensures Valid()
      ensures byAddress == TableAfterHandshake(old(byAddress), old(byUuid), address, uuid, role, now)
      ensures byUuid == old(byUuid)[uuid := address]
    {
      HandshakeKeepsIndexed(byAddress, byUuid, address, uuid, role, now);
      if uuid in byUuid {
        byAddress := byAddress - {byUuid[uuid]};
      }
      byUuid := byUuid[uuid := address];
      byAddress := byAddress[address := NewSession(address, uuid, role, now)];
    }

    method SubscribeCursor(address: Address, requestedHz: real) returns (ok: bool)
      requires Valid()
      modifies this
      ensures Valid() && byUuid == old(byUuid)
      ensures ok == (address in old(byAddress) && old(byAddress)[address].role == CursorSubscriber)
      ensures byAddress == if ok
        then old(byAddress)[address := old(byAddress)[address].(subscribed := true, requestedHz := requestedHz)]
        else old(byAddress)
    {
      if address !in byAddress || byAddress[address].role != CursorSubscriber {
        return false;
      }
      byAddress := byAddress[address := byAddress[address].(subscribed := true, requestedHz := requestedHz)];
      ok := true;
    }

    method AcknowledgeCursorEvent(address: Address, epoch: Option<Bytes>, sequence: nat) returns (ok: bool)
      requires Valid()
      modifies this
      ensures Valid() && byUuid == old(byUuid)
      ensures ok == (address in old(byAddress) && AckAccepted(old(byAddress)[address], epoch, sequence))
      ensures byAddress == if address in old(byAddress)
        then old(byAddress)[address := Acknowledge(old(byAddress)[address], epoch, sequence)]
        else old(byAddress)
    {
      if address !in byAddress {
        return false;
      }
      var session := byAddress[address];
      if session.role != CursorSubscriber || !session.subscribed || epoch != Some(session.epoch)
         || sequence != session.eventAck + 1 {
        return false;
      }
      byAddress := byAddress[address := session.(eventAck := sequence)];
      ok := true;
    }

    method SetCursorEpoch(address: Address, epoch: Bytes)
      requires Valid()
      modifies this
      ensures Valid() && byUuid == old(byUuid)
      ensures byAddress == if address in old(byAddress)
        then old(byAddress)[address := AnnounceEpoch(old(byAddress)[address], epoch)]
        else old(byAddress)
    {
      if address in byAddress {
        if byAddress[address].role == CursorSubscriber {
          byAddress := byAddress[address := byAddress[address].(epoch := epoch)];
        }
      }
    }

    method RemoveByAddress(address: Address)
      requires Valid()
      modifies this
      ensures Valid() && byAddress == old(byAddress) - {address}
      ensures byUuid == if address in old(byAddress) then old(byUuid) - {old(byAddress)[address].uuid} else old(byUuid)
      ensures old(NoDangling(byAddress, byUuid)) ==> NoDangling(byAddress, byUuid)
    {
      if address in byAddress {
        var uuid := byAddress[address].uuid;
        byAddress := byAddress - {address};
        byUuid := byUuid - {uuid};
      }
    }

    /** The first half of a sweep, under the address lock alone: what to remove. */
    method CollectExpired(now: real, timeout: real) returns (expired: map<Address, Uuid>)
      ensures expired == ExpiredOf(byAddress, now, timeout)
    {
      expired := map a | a in byAddress && now - byAddress[a].lastSeen > timeout :: byAddress[a].uuid;
    }

    /** The second half, under both locks: remove that, whatever has happened since. */
    method RemoveExpired(expired: map<Address, Uuid>)
      modifies this
      ensures byAddress == old(byAddress) - expired.Keys && byUuid == old(byUuid) - expired.Values
    {
      byAddress := byAddress - expired.Keys;
      byUuid := byUuid - expired.Values;
    }

    /** A sweep that nothing comes between: every row idle for longer than the timeout, with its index entry. */
    method CleanupExpired(now: real, timeout: real)
      requires Valid()
      modifies this
      ensures Valid()
      ensures byAddress == map a | a in old(byAddress) && now - old(byAddress)[a].lastSeen <= timeout :: old(byAddress)[a]
      ensures byUuid == old(byUuid) - (set a | a in old(byAddress) && now - old(byAddress)[a].lastSeen > timeout :: old(byAddress)[a].uuid)
      ensures old(NoDangling(byAddress, byUuid)) ==> NoDangling(byAddress, byUuid)
    {
      var expired := CollectExpired(now, timeout);
      SweepKeepsIndexedIff(byAddress, byUuid, expired);
      ExpiredClients(byAddress, now, timeout);
      RemoveExpired(expired);
    }
  }
}
