/**
 QBuffer: the key store of one key manager for one destination, with its status machine
 and its window over the recorded levels; and QKDTotalGraph, the sum over all buffers.
 */
module QBuffers {
  import opened Options
  import opened UInt32

  datatype Status = READY | WARNING | CHARGING | EMPTY

  /** A recorded level and the number of the record. */
  datatype Entry = Entry(value: nat, position: nat)

  datatype Buffer = Buffer(
    min: nat, thr: nat, max: nat,
    cur: nat,
    keys: map<nat, nat>,   // key id to size in bits
    window: seq<Entry>,
    rising: bool,
    previous: Status,
    status: Status,
    noEntry: nat, period: nat, noAddNewValue: nat)

  // ----- The operations on the buffer as a value

  function StatusFor(b: Buffer): Status {
    if b.cur >= b.thr then READY
    else if b.cur > b.min && ((b.rising && b.previous != READY) || b.previous == EMPTY) then CHARGING
    else if b.cur > b.min && b.previous != CHARGING then WARNING
    else if b.cur <= b.min then EMPTY
    else b.status
  }

  function Checked(b: Buffer): Buffer {
    b.(status := StatusFor(b), previous := StatusFor(b))
  }

  /** Init; the rising flag is whatever the memory held. */
  function Initial(min: nat, thr: nat, max: nat, cur: nat, rising: bool, status: Status): Buffer {
    Checked(Buffer(min, thr, max, cur, map[], [], rising, READY, status, 0, 5, 0))
  }

  function Logged(b: Buffer, bits: nat, positive: bool): Buffer {
    Checked(b.(cur := if positive then Plus(b.cur, bits) else Minus(b.cur, bits)))
  }

  /** Of two entries the greater comes first; with equal values the sort decides. */
  function Inserted(q: Entry, kept: seq<Entry>, tie: bool): seq<Entry>
    requires |kept| <= 1
  {
    if kept == [] then [q]
    else if q.value > kept[0].value || (q.value == kept[0].value && tie) then [q] + kept
    else kept + [q]
  }

  function Kept(window: seq<Entry>, period: nat): seq<Entry> {
    if |window| > period then window[..period] else window
  }

  function Calculated(b: Buffer, tie: bool): Buffer
    requires |Kept(b.window, b.period)| <= 1
  {
    var window := Inserted(Entry(b.cur, b.noEntry), Kept(b.window, b.period), tie);
    var c := Checked(b.(window := window, rising := window[0].position == b.noEntry));
    c.(noEntry := Plus(c.noEntry, 1))
  }

  /** Between two operations: nothing recorded yet, or one or two entries and the counters
      one apart (across the wrap of the counter, too). */
  predicate Steady(b: Buffer) {
    && b.noEntry < UINT32_RANGE && b.previous == b.status
    && (if b.window == [] then b.noEntry == 0 && b.noAddNewValue == 0
        else |b.window| <= 2 && b.noAddNewValue == Minus(b.noEntry, 1))
  }

  predicate Full(b: Buffer, bits: nat) {
    Plus(b.cur, bits) > b.max
  }

  function Recorded(b: Buffer): Buffer {
    b.(period := Minus(b.noEntry, b.noAddNewValue), noAddNewValue := b.noEntry)
  }

  /** StoreKey; an id that is taken keeps its key. */
  function Stored(b: Buffer, id: nat, bits: nat, fire: bool, tie: bool): Buffer
    requires Steady(b)
  {
    if Full(b, bits) then b
    else
      var c := if id in b.keys then b else b.(keys := b.keys[id := bits]);
      if fire then Calculated(Recorded(Logged(c, bits, true)), tie) else c
  }

  function Taken(b: Buffer, id: nat, fire: bool): Buffer {
    if id !in b.keys then b
    else
      var c := b.(keys := b.keys - {id});
      if fire then Logged(c, b.keys[id], false) else c
  }

  // ----- The sort

  predicate Descending(s: seq<Entry>) {
    forall i, j :: 0 <= i < j < |s| ==> s[i].value >= s[j].value
  }

  predicate Greatest(s: seq<Entry>, i: nat) {
    i < |s| && forall j :: 0 <= j < |s| ==> s[i].value >= s[j].value
  }

  lemma {:induction false} GreatestExists(s: seq<Entry>)
    requires s != []
    ensures exists i: nat :: Greatest(s, i)
  {
    if |s| == 1 {
      assert Greatest(s, 0);
    } else {
      GreatestExists(s[..|s| - 1]);
      var i: nat :| Greatest(s[..|s| - 1], i);
      var best := if s[i].value >= s[|s| - 1].value then i else |s| - 1;
      forall j | 0 <= j < |s| ensures s[best].value >= s[j].value {
        assert j < |s| - 1 ==> s[..|s| - 1][j] == s[j];
        assert s[..|s| - 1][i] == s[i];
      }
      assert Greatest(s, best);
    }
  }

  predicate Above(r: seq<Entry>, rest: seq<Entry>) {
    Descending(r) && forall i, j :: 0 <= i < |r| && 0 <= j < |rest| ==> r[i].value >= rest[j].value
  }

  lemma SortStep(r: seq<Entry>, rest: seq<Entry>, i: nat, left: seq<Entry>)
    requires Above(r, rest) && Greatest(rest, i) && left == rest[..i] + rest[i + 1..]
    ensures Above(r + [rest[i]], left)
    ensures multiset(r + [rest[i]]) + multiset(left) == multiset(r) + multiset(rest)
  {
    assert rest == rest[..i] + [rest[i]] + rest[i + 1..];
    forall j | 0 <= j < |left| ensures left[j] == rest[if j < i then j else j + 1] {
    }
  }

  /** std::sort with compareByData: some descending arrangement. */
  method SortDescending(s: seq<Entry>) returns (r: seq<Entry>)
    ensures multiset(r) == multiset(s) && Descending(r)
  {
    r := [];
    var rest := s;
    while rest != []
      invariant multiset(r) + multiset(rest) == multiset(s)
      invariant Above(r, rest)
      decreases |rest|
    {
      GreatestExists(rest);
      var i: nat :| i < |rest| && Greatest(rest, i);
      var left := rest[..i] + rest[i + 1..];
      SortStep(r, rest, i, left);
      r, rest := r + [rest[i]], left;
    }
  }

  lemma SortedPair(q: Entry, kept: seq<Entry>, r: seq<Entry>) returns (tie: bool)
    requires |kept| <= 1 && multiset(r) == multiset([q] + kept) && Descending(r)
    ensures r == Inserted(q, kept, tie)
  {
    assert |r| == |multiset(r)| == |[q] + kept|;
    assert r[0] in multiset(r);
    tie := r[0] == q;
    if kept == [] {
      assert r == [q];
    } else {
      assert [q] + kept == [q, kept[0]];
      assert r == [r[0], r[1]];
      assert multiset(r) == multiset{r[0], r[1]} == multiset{q, kept[0]};
      assert r[0] == q ==> r[1] == kept[0] by {
        assert multiset{r[0], r[1]} - multiset{q} == multiset{q, kept[0]} - multiset{q};
      }
      assert r[0] != q ==> r[0] == kept[0] && r[1] == q;
    }
  }

  // ----- The buffer

  class QBuffer {
    const m_minKeyBit: nat
    const m_thresholdKeyBit: nat
    const m_maxKeyBit: nat
    var m_currentKeyBit: nat
    var m_keys: map<nat, nat>
    var m_previousValues: seq<Entry>
    var m_isRisingCurve: bool
    var m_previousStatus: Status
    var m_status: Status
    var m_noEntry: nat
    var m_period: nat
    var m_noAddNewValue: nat

    /** Init of a new buffer; rising and status are the fields Init leaves alone. */
    constructor (min: nat, thr: nat, max: nat, current: nat, rising: bool, status: Status)
      ensures View() == Initial(min, thr, max, current, rising, status)
    {
      m_minKeyBit, m_thresholdKeyBit, m_maxKeyBit, m_currentKeyBit := min, thr, max, current;
      m_keys, m_previousValues, m_isRisingCurve := map[], [], rising;
      m_noEntry, m_period, m_noAddNewValue := 0, 5, 0;
      m_previousStatus, m_status := READY, status;
      new;
      CheckState();
    }

    function View(): Buffer
      reads this
    {
      Buffer(m_minKeyBit, m_thresholdKeyBit, m_maxKeyBit, m_currentKeyBit, m_keys, m_previousValues, m_isRisingCurve,
             m_previousStatus, m_status, m_noEntry, m_period, m_noAddNewValue)
    }

    method CheckState()
      modifies this`m_status, this`m_previousStatus
      ensures View() == Checked(old(View()))
    {
      if m_currentKeyBit >= m_thresholdKeyBit {
        m_status := READY;
      } else if m_currentKeyBit < m_thresholdKeyBit && m_currentKeyBit > m_minKeyBit
                && ((m_isRisingCurve && m_previousStatus != READY) || m_previousStatus == EMPTY) {
        m_status := CHARGING;
      } else if m_currentKeyBit < m_thresholdKeyBit && m_currentKeyBit > m_minKeyBit && m_previousStatus != CHARGING {
        m_status := WARNING;
      } else if m_currentKeyBit <= m_minKeyBit {
        m_status := EMPTY;
      }
      if m_previousStatus != m_status {
        m_previousStatus := m_status;
      }
    }

    method LogUpdate(diffValue: nat, positive: bool)
      modifies this`m_currentKeyBit, this`m_status, this`m_previousStatus
      ensures View() == Logged(old(View()), diffValue, positive)
    {
      if positive {
        m_currentKeyBit := (m_currentKeyBit + diffValue) % UINT32_RANGE;
      } else {
        m_currentKeyBit := (m_currentKeyBit - diffValue) % UINT32_RANGE;
      }
      CheckState();
    }

    /** Ties in the sort are resolved somehow: tie tells how. */
    method KeyCalculation() returns (ghost tie: bool)
      requires |Kept(m_previousValues, m_period)| <= 1
      modifies this`m_previousValues, this`m_isRisingCurve, this`m_status, this`m_previousStatus, this`m_noEntry
      ensures View() == Calculated(old(View()), tie)
    {
      ghost var window := m_previousValues;
      var q := Entry(m_currentKeyBit, m_noEntry);
      while |m_previousValues| > m_period
        invariant Kept(m_previousValues, m_period) == Kept(window, m_period)
        modifies this`m_previousValues
        decreases |m_previousValues|
      {
        m_previousValues := m_previousValues[..|m_previousValues| - 1];
      }
      ghost var kept := m_previousValues;
      m_previousValues := [q] + m_previousValues;
      m_previousValues := SortDescending(m_previousValues);
      tie := SortedPair(q, kept, m_previousValues);
      m_isRisingCurve := m_previousValues[0].position == m_noEntry;
      CheckState();
      m_noEntry := (m_noEntry + 1) % UINT32_RANGE;
    }

    /** increase is what the trace for the total graph fires, if it fires. */
    method StoreKey(id: nat, bits: nat, fireTraces: bool)
      returns (stored: bool, increase: Option<nat>, ghost tie: bool)
      requires Steady(View())
      modifies this
      ensures View() == Stored(old(View()), id, bits, fireTraces, tie)
      ensures stored <==> !Full(old(View()), bits)
      ensures increase == if !stored then Some(0) else if fireTraces then Some(bits) else None
    {
      increase, tie := None, false;
      if (m_currentKeyBit + bits) % UINT32_RANGE > m_maxKeyBit {
        return false, Some(0), false;
      }
      ghost var b := View();
      if id !in m_keys {
        m_keys := m_keys[id := bits];
      }
      assert View() == if id in b.keys then b else b.(keys := b.keys[id := bits]);
      if fireTraces {
        increase := Some(bits);
        tie := Charge(bits);
      }
      stored := true;
    }

    /** The part of StoreKey that runs when traces are fired. */
    method Charge(bits: nat) returns (ghost tie: bool)
      requires Steady(View())
      modifies this
      ensures View() == Calculated(Recorded(Logged(old(View()), bits, true)), tie)
    {
      LogUpdate(bits, true);
      ghost var d := View();
      m_period := (m_noEntry - m_noAddNewValue) % UINT32_RANGE;
      m_noAddNewValue := m_noEntry;
      assert View() == Recorded(d);
      tie := KeyCalculation();
    }

    /** A key by its id, or any key when no id is given. */
    method GetKey(keyId: Option<nat>, fireTraces: bool) returns (key: Option<nat>, decrease: Option<nat>)
      modifies this`m_keys, this`m_currentKeyBit, this`m_status, this`m_previousStatus
      ensures keyId.Some? ==> key == if keyId.value in old(m_keys) then keyId else None
      ensures keyId.None? ==> if old(m_keys) == map[] then key == None else key.Some? && key.value in old(m_keys)
      ensures View() == if key == None then old(View()) else Taken(old(View()), key.value, fireTraces)
      ensures decrease == if key == None || !fireTraces then None else Some(old(m_keys)[key.value])
    {
      key, decrease := None, None;
      if keyId.Some? {
        if keyId.value in m_keys {
          key := keyId;
        }
      } else if m_keys != map[] {
        var id: nat :| id in m_keys;
        key := Some(id);
      }
      if key.Some? {
        var bits := m_keys[key.value];
        m_keys := m_keys - {key.value};
        if fireTraces {
          LogUpdate(bits, false);
          decrease := Some(bits);
        }
      }
    }
  }
}
