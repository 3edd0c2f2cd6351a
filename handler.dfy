/** The rules the bot's command handlers apply around the two stores: the slot gate and spin,
    the duel penalty clamp and announcement, the maintainer's refresh and the Top standings. */
module Handler {
  import opened Types
  import opened Casino
  import opened Duel

  // ---------------------------------------------------------------------------------------
  // Slot

  /** What a Slot request leads to: refused, or one spin whose symbol and post-spin counters
      the bot reports back. */
  datatype SlotOutcome = Denied | Spun(result: SlotResult, tries: nat, points: nat)

  /** The value of the bot's dice reply; a reply of any other kind counts as 0. */
  function DiceValue(reply: Option<Int32>): (v: Int32)
    ensures reply.Some? ==> v == reply.value
    ensures reply.None? ==> v == 0 && Decode(v) == Nothing
  {
    match reply
    case Some(v) => v
    case None => 0
  }

  /** The gate: a player is refused only if they have a record with no spins left. */
  predicate SlotDenied(m: map<UserId, Record>, id: UserId) {
    match if id in m then Some(m[id]) else None
    case Some(r) => r.triesLeft == 0
    case None => false
  }

  /** The record a Slot request spins: the stored one, or a new one under the sender's name. */
  function EntryOrNew(m: map<UserId, Record>, id: UserId, name: string): Record {
    if id in m then m[id] else NewRecord(name)
  }

  /** A whole Slot request on the ledger `m`, as a value: the new ledger and the outcome. */
  function SlotStep(m: map<UserId, Record>, id: UserId, name: string, reply: Option<Int32>)
    : (res: (map<UserId, Record>, SlotOutcome))
    ensures res.1 == Denied <==> id in m && m[id].triesLeft == 0
    ensures res.1 == Denied ==> res.0 == m
    ensures res.1 != Denied ==>
      && res.0.Keys == m.Keys + {id}
      && (forall k :: k in m && k != id ==> res.0[k] == m[k])
      && res.0[id] == Spin(EntryOrNew(m, id, name), Decode(DiceValue(reply)))
      && res.1 == Spun(Decode(DiceValue(reply)), res.0[id].tries, res.0[id].points)
    ensures LedgerSane(m) ==> LedgerSane(res.0)
  {
    if SlotDenied(m, id) then
      (m, Denied)
    else
      var result := Decode(DiceValue(reply));
      var r := Spin(EntryOrNew(m, id, name), result);
      (m[id := r], Spun(result, r.tries, r.points))
  }

  /** A first-time player is recorded under the name they have now and ends their first spin
      with one try taken and two left. */
  lemma FirstSlotCreatesRecord(m: map<UserId, Record>, id: UserId, name: string, reply: Option<Int32>)
    requires id !in m
    ensures SlotStep(m, id, name, reply).1.Spun?
    ensures SlotStep(m, id, name, reply).0[id]
         == Record(name, Points(Decode(DiceValue(reply))), 1, DailyCap - 1)
  {
  }

  /** A returning player keeps the name stored with the record, whatever name they have now. */
  lemma SlotKeepsStoredName(m: map<UserId, Record>, id: UserId, name: string, reply: Option<Int32>)
    requires id in m && m[id].triesLeft > 0
    ensures SlotStep(m, id, name, reply).0[id].userName == m[id].userName
  {
  }

  /** How many more spins `id` may take on ledger `m` before a refresh. */
  function Allowance(m: map<UserId, Record>, id: UserId): nat {
    if id in m then m[id].triesLeft else DailyCap
  }

  function TriesTaken(m: map<UserId, Record>, id: UserId): nat {
    if id in m then m[id].tries else 0
  }

  function Min(a: nat, b: nat): nat { if a <= b then a else b }

  /** Slot requests from one player, one after the other: the final ledger and how many of
      them were granted. */
  function SlotRun(m: map<UserId, Record>, id: UserId, name: string, replies: seq<Option<Int32>>)
    : (map<UserId, Record>, nat)
    decreases |replies|
  {
    if replies == [] then (m, 0)
    else
      var step := SlotStep(m, id, name, replies[0]);
      var rest := SlotRun(step.0, id, name, replies[1..]);
      (rest.0, rest.1 + if step.1.Spun? then 1 else 0)
  }

  /** Of N requests in a row, exactly as many as the player's allowance succeed (3 for a new
      player); each success counts one try, the refused ones change nothing, and no other
      player's record is touched. */
  lemma {:induction false} SlotRunGrantsAllowance(m: map<UserId, Record>, id: UserId, name: string,
                                                  replies: seq<Option<Int32>>)
    ensures SlotRun(m, id, name, replies).1 == Min(|replies|, Allowance(m, id))
    ensures var (m', n) := SlotRun(m, id, name, replies);
      && (n > 0 ==> id in m')
      && (id in m' ==> m'[id].tries == TriesTaken(m, id) + n && m'[id].triesLeft == Allowance(m, id) - n)
      && (n == 0 ==> m' == m)
      && m'.Keys <= m.Keys + {id}
      && (forall k :: k in m && k != id ==> k in m' && m'[k] == m[k])
    decreases |replies|
  {
    if replies != [] {
      var step := SlotStep(m, id, name, replies[0]);
      SlotRunGrantsAllowance(step.0, id, name, replies[1..]);
    }
  }

  /** The Slot command on the shared ledger: the gate, then `entry(id).or_insert(..).spin(..)`,
      then the snapshot of the player's counters that the reply reports. */
  method SlotCommand(ledger: Ledger, id: UserId, fullName: string, reply: Option<Int32>)
    returns (outcome: SlotOutcome)
    modifies ledger
    ensures (ledger.entries, outcome) == SlotStep(old(ledger.entries), id, fullName, reply)
  {
    if id in ledger.entries && ledger.entries[id].triesLeft == 0 {
      assert SlotDenied(ledger.entries, id);
      return Denied;
    }
    assert !SlotDenied(ledger.entries, id);
    var result := Decode(DiceValue(reply));
    if id !in ledger.entries {
      ledger.entries := ledger.entries[id := NewRecord(fullName)];
    }
    assert ledger.entries[id] == EntryOrNew(old(ledger.entries), id, fullName);
    ledger.entries := ledger.entries[id := Spin(ledger.entries[id], result)];
    assert ledger.entries == old(ledger.entries)[id := Spin(EntryOrNew(old(ledger.entries), id, fullName), result)];
    var snapshot := ledger.entries[id];
    outcome := Spun(result, snapshot.tries, snapshot.points);
  }

  // ---------------------------------------------------------------------------------------
  // Refresh

  /** The maintainer's Refresh command: only the configured maintainer may run it. */
  method MaintainerCommand(ledger: Ledger, sender: UserId, maintainer: UserId)
    modifies ledger
    ensures ledger.entries == if sender == maintainer then RefreshAll(old(ledger.entries)) else old(ledger.entries)
  {
    if sender == maintainer {
      ledger.Refresh();
    }
  }

  // ---------------------------------------------------------------------------------------
  // Duel

  /** The penalty a Duel command asks for, clamped to between 2 and 15 minutes. */
  function ClampTime(time: Int64): (t: Int64)
    ensures 2 <= t <= 15
    ensures 2 <= time <= 15 ==> t == time
    ensures time >= 16 ==> t == 15
    ensures time <= 1 ==> t == 2
  {
    if time >= 16 then 15
    else if time >= 2 then time
    else 2
  }

  /** Clamping a clamped penalty changes nothing. */
  lemma ClampIdempotent(time: Int64)
    ensures ClampTime(ClampTime(time)) == ClampTime(time)
  {
  }

  /** A longer request never yields a shorter penalty. */
  lemma ClampMonotone(a: Int64, b: Int64)
    requires a <= b
    ensures ClampTime(a) <= ClampTime(b)
  {
  }

  /** A chat user as the handler sees them. */
  datatype Sender = Sender(id: UserId, fullName: string)

  /** The Duel command: a message that is not a reply opens nothing; a reply challenges the
      replied-to user, and the duel is kept under the announcement message `announcement`. */
  method DuelCommand(table: DuelTable, from: Sender, replyTo: Option<Sender>,
                     announcement: MessageId, time: Int64)
    requires table.Valid()
    modifies table
    ensures table.Valid()
    ensures replyTo.None? ==> table.records == old(table.records) && table.openDuels == old(table.openDuels)
    ensures replyTo.Some? ==>
      && table.records.Keys == old(table.records).Keys + {from.id, replyTo.value.id}
      && (forall id :: id in old(table.records) ==> table.records[id] == old(table.records)[id])
      && (forall id :: id in table.records && id !in old(table.records) ==> table.records[id] == NewDuelRecord())
      && table.openDuels.Keys == old(table.openDuels).Keys + {announcement}
      && (forall k :: k in old(table.openDuels) && k != announcement ==> table.openDuels[k] == old(table.openDuels)[k])
    ensures replyTo.Some? ==>
      var d := table.openDuels[announcement];
      && fresh(d)
      && d.pushkin == from.id && d.pushkinName == from.fullName
      && d.dantes == replyTo.value.id && d.dantesName == replyTo.value.fullName
      && d.time == ClampTime(time) && d.msg == announcement
      && d.pushkinThrow == None && d.dantesThrow == None
  {
    var t := ClampTime(time);
    if replyTo.None? {
      return;
    }
    var dantes := replyTo.value;
    table.StartDuel(from.id, dantes.id, from.fullName, dantes.fullName, announcement, t);
  }

  // ---------------------------------------------------------------------------------------
  // Top

  /** `k` is the smallest player id in `s`. */
  predicate IsMinKey(k: UserId, s: set<UserId>) {
    k in s && forall j :: j in s ==> k <= j
  }

  lemma {:induction false} MinKeyExists(s: set<UserId>)
    requires s != {}
    ensures exists k :: IsMinKey(k, s)
    decreases |s|
  {
    var x :| x in s;
    if s == {x} {
      assert IsMinKey(x, s);
    } else {
      MinKeyExists(s - {x});
      var k :| IsMinKey(k, s - {x});
      forall j | j in s
        ensures Min(x, k) <= j
      {
        if j != x {
          assert j in s - {x};
        }
      }
      assert IsMinKey(Min(x, k), s);
    }
  }

  ghost function MinKey(s: set<UserId>): (k: UserId)
    requires s != {}
    ensures IsMinKey(k, s)
  {
    MinKeyExists(s);
    var k :| IsMinKey(k, s); k
  }

  /** The ledger's records in ascending order of player id, the order in which the ordered
      map hands out its values. */
  ghost function ValuesByKey(m: map<UserId, Record>): seq<Record>
    decreases |m|
  {
    if m == map[] then []
    else
      var k := MinKey(m.Keys);
      assert |m - {k}| < |m| by {
        assert (m - {k}).Keys == m.Keys - {k};
      }
      [m[k]] + ValuesByKey(m - {k})
  }

  /** The ordered values list every record once. */
  lemma {:induction false} ValuesByKeyComplete(m: map<UserId, Record>)
    ensures |ValuesByKey(m)| == |m|
    ensures forall k :: k in m ==> m[k] in ValuesByKey(m)
    ensures forall r :: r in ValuesByKey(m) ==> exists k :: k in m && m[k] == r
    decreases |m|
  {
    if m != map[] {
      var k := MinKey(m.Keys);
      var rest := m - {k};
      assert rest.Keys == m.Keys - {k};
      ValuesByKeyComplete(rest);
      assert ValuesByKey(m) == [m[k]] + ValuesByKey(rest);
      forall j | j in m
        ensures m[j] in ValuesByKey(m)
      {
        if j != k {
          assert j in rest;
        }
      }
    }
  }

  /** `into_values().collect()` on the ordered map. */
  method CollectValues(m: map<UserId, Record>) returns (vals: seq<Record>)
    ensures vals == ValuesByKey(m)
  {
    vals := [];
    var rest := m;
    while rest != map[]
      invariant vals + ValuesByKey(rest) == ValuesByKey(m)
      decreases |rest|
    {
      MinKeyExists(rest.Keys);
      var k :| IsMinKey(k, rest.Keys);
      assert k == MinKey(rest.Keys);
      assert (rest - {k}).Keys == rest.Keys - {k};
      assert ValuesByKey(rest) == [rest[k]] + ValuesByKey(rest - {k});
      vals := vals + [rest[k]];
      rest := rest - {k};
    }
  }

  ghost predicate SortedByPoints(s: seq<Record>) {
    forall i, j :: 0 <= i < j < |s| ==> s[i].points <= s[j].points
  }

  /** Exchanges two elements of the vector. */
  method Swap(a: array<Record>, i: nat, j: nat)
    requires i < a.Length && j < a.Length
    modifies a
    ensures a[i] == old(a[j]) && a[j] == old(a[i])
    ensures forall k :: 0 <= k < a.Length && k != i && k != j ==> a[k] == old(a[k])
    ensures multiset(a[..]) == multiset(old(a[..]))
  {
    a[i], a[j] := a[j], a[i];
  }

  /** One step of insertion sort: moves `a[i]` left past every larger element, so that the
      sorted prefix grows by one. */
  method InsertAt(a: array<Record>, i: nat)
    requires i < a.Length
    requires SortedByPoints(a[..i])
    modifies a
    ensures SortedByPoints(a[..i + 1])
    ensures a[i + 1..] == old(a[i + 1..])
    ensures multiset(a[..]) == multiset(old(a[..]))
  {
    var j := i;
    while j > 0 && CompareRecords(a[j - 1], a[j]) == Greater
      invariant 0 <= j <= i
      invariant forall p, q :: 0 <= p < q <= i && p != j && q != j ==> a[p].points <= a[q].points
      invariant forall q :: j < q <= i ==> a[j].points < a[q].points
      invariant a[i + 1..] == old(a[i + 1..])
      invariant multiset(a[..]) == multiset(old(a[..]))
    {
      Swap(a, j - 1, j);
      j := j - 1;
    }
  }

  /** `sort()` on the vector: a stable sort in place by the record ordering, which looks at
      points only. */
  method SortByPoints(a: array<Record>)
    modifies a
    ensures SortedByPoints(a[..])
    ensures multiset(a[..]) == multiset(old(a[..]))
  {
    var i := 0;
    while i < a.Length
      invariant 0 <= i <= a.Length
      invariant SortedByPoints(a[..i])
      invariant multiset(a[..]) == multiset(old(a[..]))
    {
      InsertAt(a, i);
      i := i + 1;
    }
    assert a[..a.Length] == a[..];
  }

  /** `s` read backwards. */
  function Reversed(s: seq<Record>): (r: seq<Record>)
    ensures |r| == |s| && forall k :: 0 <= k < |s| ==> r[k] == s[|s| - 1 - k]
  {
    seq(|s|, k requires 0 <= k < |s| => s[|s| - 1 - k])
  }

  /** A sequence read backwards has the same elements, as often. */
  lemma {:induction false} ReversalKeepsMultiset(s: seq<Record>)
    ensures multiset(Reversed(s)) == multiset(s)
  {
    if s != [] {
      var n := |s|;
      ReversalKeepsMultiset(s[..n - 1]);
      assert s == s[..n - 1] + [s[n - 1]];
      assert Reversed(s) == [s[n - 1]] + Reversed(s[..n - 1]);
    }
  }

  /** `reverse()` on the vector, in place. */
  method ReverseRecords(a: array<Record>)
    modifies a
    ensures a[..] == Reversed(old(a[..]))
    ensures multiset(a[..]) == multiset(old(a[..]))
  {
    ghost var orig := a[..];
    var n := a.Length;
    var i := 0;
    while i < n / 2
      invariant 0 <= i <= n / 2 && |orig| == n
      invariant forall k :: 0 <= k < i ==> a[k] == orig[n - 1 - k]
      invariant forall k :: n - i <= k < n ==> a[k] == orig[n - 1 - k]
      invariant forall k :: i <= k < n - i ==> a[k] == orig[k]
    {
      Swap(a, i, n - 1 - i);
      i := i + 1;
    }
    assert a[..] == Reversed(orig);
    ReversalKeepsMultiset(orig);
  }

  /** A fresh vector holding `vals`. */
  method ToArray(vals: seq<Record>) returns (a: array<Record>)
    ensures fresh(a) && a[..] == vals
  {
    a := new Record[|vals|](i => if 0 <= i < |vals| then vals[i] else NewRecord(""));
    assert a[..] == vals;
  }

  /** Two sequences with the same multiset have the same length and the same elements. */
  lemma SameElements(s: seq<Record>, t: seq<Record>)
    requires multiset(s) == multiset(t)
    ensures |s| == |t|
    ensures forall r :: r in s <==> r in t
  {
    assert |s| == |multiset(s)| && |t| == |multiset(t)|;
    forall r
      ensures r in s <==> r in t
    {
      assert r in s <==> r in multiset(s);
      assert r in t <==> r in multiset(t);
    }
  }

  /** Reading a sorted sequence backwards gives non-increasing points. */
  lemma ReversedSortedNonIncreasing(sorted: seq<Record>, top: seq<Record>)
    requires SortedByPoints(sorted) && top == Reversed(sorted)
    ensures forall i, j :: 0 <= i < j < |top| ==> top[i].points >= top[j].points
  {
    forall i, j | 0 <= i < j < |top|
      ensures top[i].points >= top[j].points
    {
      assert top[i] == sorted[|top| - 1 - i] && top[j] == sorted[|top| - 1 - j];
    }
  }

  /** The Top command: every ledger record, in order of non-increasing points. */
  method TopCommand(ledger: Ledger) returns (top: seq<Record>)
    ensures multiset(top) == multiset(ValuesByKey(ledger.entries))
    ensures |top| == |ledger.entries|
    ensures forall id :: id in ledger.entries ==> ledger.entries[id] in top
    ensures forall r :: r in top ==> r in ledger.entries.Values
    ensures forall i, j :: 0 <= i < j < |top| ==> top[i].points >= top[j].points
  {
    var vals := CollectValues(ledger.entries);
    ValuesByKeyComplete(ledger.entries);
    var a := ToArray(vals);
    SortByPoints(a);
    ghost var sorted := a[..];
    ReverseRecords(a);
    top := a[..];
    ReversedSortedNonIncreasing(sorted, top);
    SameElements(top, vals);
  }
}
