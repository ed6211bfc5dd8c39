/**
 The key stream of an ETSI 004 application: AppKey and KeyStreamSession, and what
 their methods do to the stream seen as a map from key index to value and lifetime.
 */
module KeyStream {
  import opened Options
  import opened OrderedKeys

  datatype SessionType = EMPTY | ENCRYPTION | AUTHENTICATION

  // ----- The stream as a value

  /** What a stream knows of a key: its value and what is left of its lifetime. */
  datatype Key = Key(value: string, lifetime: nat)

  type Stream = map<nat, Key>

  /** A stream with the id, the confirmation and the wanted size of its session. */
  datatype Session = Session(id: string, verified: bool, size: nat, keys: Stream)

  /** UseLifetime: saturating subtraction. */
  function Charge(lifetime: nat, amount: nat): nat {
    if lifetime >= amount then lifetime - amount else 0
  }

  /** begin() of the index-ordered map. */
  function Front(s: Stream): Option<nat> {
    if s == map[] then None else Some(Least(s.Keys))
  }

  /** AddKey: std::map::insert keeps an index that is taken. */
  function Added(s: Stream, index: nat, key: Key): Stream {
    if index in s then s else s[index := key]
  }

  /** GetKey(p): the front key is charged and leaves when nothing is left of it; an
      authentication key leaves at once. */
  function AfterGet(s: Stream, t: SessionType, p: nat): Stream {
    if s == map[] then s
    else
      var i := Least(s.Keys);
      if t != ENCRYPTION || Charge(s[i].lifetime, p) == 0 then s - {i}
      else s[i := Key(s[i].value, Charge(s[i].lifetime, p))]
  }

  /** SyncStream: everything before a known index goes; an unknown index changes nothing. */
  function AfterSync(s: Stream, index: nat): Stream {
    if index in s then map i | i in s && index <= i :: s[i] else s
  }

  /** What SyncStream answers: begin() of the stream is where the index was looked up. */
  predicate InSync(s: Stream, index: nat) {
    if index in s then Front(s) == Some(index) else s == map[]
  }

  /** What SendPacket does to the encryption stream: GetKey(p), then UseLifetime(p) once
      more on the same key, which by then may have left the stream. */
  function AfterSend(s: Stream, p: nat): Stream {
    if s == map[] then s
    else
      var i := Least(s.Keys);
      var left := Charge(s[i].lifetime, p);
      if left == 0 then s - {i} else s[i := Key(s[i].value, Charge(left, p))]
  }

  /** What both charges leave of the front key. */
  function FrontAfterSend(s: Stream, p: nat): nat
    requires s != map[]
  {
    Charge(FrontAfterGet(s, p), p)
  }

  function FrontAfterGet(s: Stream, p: nat): nat
    requires s != map[]
  {
    Charge(s[Least(s.Keys)].lifetime, p)
  }

  /** The index of the key that a packet naming this one is opened with: the one named, or
      the first of all if that is missing. */
  function KeyFor(s: Stream, index: nat): nat
    requires s != map[]
  {
    if index in s then index else Least(s.Keys)
  }

  /** What ProcessDataPacket does to it: skip to the named key, then GetKey(p). */
  function AfterReceive(s: Stream, index: nat, p: nat): Stream {
    AfterGet(AfterSync(s, index), ENCRYPTION, p)
  }

  lemma SyncFinds(s: Stream, index: nat)
    ensures AfterSync(s, index) == map[] <==> s == map[]
    ensures s != map[] ==>
              Least(AfterSync(s, index).Keys) == KeyFor(s, index)
              && AfterSync(s, index)[KeyFor(s, index)] == s[KeyFor(s, index)]
  {
    if s != map[] {
      assert KeyFor(s, index) in AfterSync(s, index);
    }
  }

  // ----- The classes

  class AppKey {
    const m_index: nat
    const m_value: string
    var m_lifetime: nat

    constructor (index: nat, value: string, lifetime: nat)
      ensures m_index == index && m_value == value && m_lifetime == lifetime
    {
      m_index, m_value, m_lifetime := index, value, lifetime;
    }

    method UseLifetime(amount: nat)
      modifies this`m_lifetime
      ensures m_lifetime == Charge(old(m_lifetime), amount)
    {
      if m_lifetime >= amount {
        m_lifetime := m_lifetime - amount;
      } else {
        m_lifetime := 0;
      }
    }

    function View(): Key
      reads this
    {
      Key(m_value, m_lifetime)
    }
  }

  class KeyStreamSession {
    var m_id: string
    const m_type: SessionType
    const m_size: nat
    var m_verified: bool
    var m_stream: map<nat, AppKey>
    /** What the key objects amount to. */
    ghost var keys: Stream

    constructor (t: SessionType, size: nat)
      ensures Valid() && m_type == t && View() == Session("", false, size, map[]) && m_stream == map[]
    {
      m_id, m_type, m_size, m_verified, m_stream, keys := "", t, size, false, map[], map[];
    }

    /** Keys are filed under their own index (so no key occurs twice). */
    ghost predicate Valid()
      reads this, m_stream.Values
    {
      && keys.Keys == m_stream.Keys
      && forall i :: i in m_stream ==> m_stream[i].m_index == i && m_stream[i].View() == keys[i]
    }

    ghost function View(): Session
      reads this
    {
      Session(m_id, m_verified, m_size, keys)
    }

    method GetKeyCount() returns (count: nat)
      requires Valid()
      ensures count == |keys| && (count == 0 <==> keys == map[])
    {
      assert |keys| == |keys.Keys|;
      count := |m_stream|;
    }

    method ClearStream()
      modifies this
      ensures Valid() && m_stream == map[] && View() == Session("", false, m_size, map[])
    {
      m_id, m_verified, m_stream, keys := "", false, map[], map[];
    }

    method AddKey(key: AppKey)
      requires Valid()
      modifies this`m_stream, this`keys
      ensures Valid() && keys == Added(old(keys), key.m_index, key.View())
      ensures m_stream.Values <= old(m_stream).Values + {key}
    {
      if key.m_index !in m_stream {
        m_stream := m_stream[key.m_index := key];
        keys := keys[key.m_index := key.View()];
      }
    }

    /** The front key, charged; it stays shared with the stream if it is still in it. */
    method GetKey(packetSize: nat) returns (key: AppKey?)
      requires Valid()
      modifies this`m_stream, this`keys, m_stream.Values`m_lifetime
      ensures Valid() && keys == AfterGet(old(keys), m_type, packetSize)
      ensures TakenFrom(old(keys), key)
      ensures key != null ==> key.m_index in old(m_stream) && old(m_stream)[key.m_index] == key
      ensures key != null && m_type == ENCRYPTION ==>
                && key.m_lifetime == FrontAfterGet(old(keys), packetSize)
                && (key.m_lifetime == 0 <==> key.m_index !in m_stream)
      ensures forall i :: i in m_stream ==> i in old(m_stream) && m_stream[i] == old(m_stream)[i]
    {
      key := null;
      if |m_stream| != 0 {
        var it := Least(m_stream.Keys);
        key := m_stream[it];
        keys := AfterGet(keys, m_type, packetSize);
        if m_type == ENCRYPTION {
          m_stream[it].UseLifetime(packetSize);
          if m_stream[it].m_lifetime == 0 {
            m_stream := m_stream - {it};
          }
        } else {
          m_stream := m_stream - {it};
        }
      }
    }

    /** True when the index is at the front (or unknown to an empty stream). */
    method SyncStream(index: nat) returns (inSync: bool)
      requires Valid()
      modifies this`m_stream, this`keys
      ensures Valid() && keys == AfterSync(old(keys), index)
      ensures forall i :: i in m_stream ==> i in old(m_stream) && m_stream[i] == old(m_stream)[i]
      ensures inSync == InSync(old(keys), index)
    {
      inSync := if |m_stream| == 0 then true else index in m_stream && Least(m_stream.Keys) == index;
      if index in m_stream {
        DropBefore(index);
        keys := AfterSync(keys, index);
      }
    }

    /** The loop of SyncStream. */
    method DropBefore(index: nat)
      requires index in m_stream
      modifies this`m_stream
      ensures m_stream == map i | i in old(m_stream) && index <= i :: old(m_stream)[i]
    {
      while Least(m_stream.Keys) != index
        invariant index in m_stream
        invariant forall i :: i in m_stream ==> i in old(m_stream) && m_stream[i] == old(m_stream)[i]
        invariant forall i :: i in old(m_stream) && index <= i ==> i in m_stream
        decreases |m_stream|
      {
        var begin := Least(m_stream.Keys);
        m_stream := m_stream - {begin};
      }
    }

    /** The key handling of SendPacket: the second charge goes to the same object. */
    method TakeForSending(packetSize: nat) returns (key: AppKey?)
      requires Valid() && m_type == ENCRYPTION
      modifies this`m_stream, this`keys, m_stream.Values`m_lifetime
      ensures Valid() && keys == AfterSend(old(keys), packetSize)
      ensures TakenFrom(old(keys), key)
      ensures key != null ==> key.m_lifetime == FrontAfterSend(old(keys), packetSize)
      ensures m_stream.Values <= old(m_stream).Values
    {
      key := GetKey(packetSize);
      if key != null {
        ChargeShared(key, packetSize);
      }
      assert keys == AfterSend(old(keys), packetSize);
    }

    /** The charge of a key that may still be in the stream. */
    method ChargeShared(key: AppKey, packetSize: nat)
      requires Valid() && (key.m_index in m_stream ==> m_stream[key.m_index] == key)
      modifies this`keys, key`m_lifetime
      ensures Valid() && key.m_lifetime == Charge(old(key.m_lifetime), packetSize)
      ensures keys == if key.m_index in m_stream then old(keys)[key.m_index := key.View()] else old(keys)
    {
      key.UseLifetime(packetSize);
      if key.m_index in m_stream {
        keys := keys[key.m_index := key.View()];
      }
    }

    /** The key handling of ProcessDataPacket: skip to the named key, then take. */
    method TakeForReceiving(index: nat, packetSize: nat) returns (inSync: bool, key: AppKey?)
      requires Valid()
      modifies this`m_stream, this`keys, m_stream.Values`m_lifetime
      ensures Valid() && keys == AfterGet(AfterSync(old(keys), index), m_type, packetSize)
      ensures TakenFrom(AfterSync(old(keys), index), key)
      ensures if key == null then old(keys) == map[]
              else old(keys) != map[] && key.m_index == KeyFor(old(keys), index)
                   && key.m_value == old(keys)[key.m_index].value
      ensures key != null && m_type == ENCRYPTION ==>
                key.m_lifetime == FrontAfterGet(AfterSync(old(keys), index), packetSize)
      ensures inSync == InSync(old(keys), index)
      ensures m_stream.Values <= old(m_stream).Values
    {
      inSync := SyncStream(index);
      key := GetKey(packetSize);
      SyncFinds(old(keys), index);
    }
  }

  /** key is the front key of the stream, or null if there is none. */
  ghost predicate TakenFrom(s: Stream, key: AppKey?) {
    if key == null then s == map[]
    else s != map[] && Least(s.Keys) == key.m_index && key.m_value == s[key.m_index].value
  }
}
