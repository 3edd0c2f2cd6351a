/** The slot-machine ledger: one record per player, the outcome tables and the daily refresh. */
module Casino {
  import opened Types

  /** Spins a player has per day; a fresh record and `refresh_tries` both grant this many. */
  const DailyCap: nat := 3

  /** The most points a single spin can credit (`Sevens`). */
  const MaxSpinPoints: nat := 5

  /** A player's ledger entry. `usize` counters are unbounded naturals here. */
  datatype Record = Record(userName: string, points: nat, tries: nat, triesLeft: nat)

  /** The symbols a slot-machine spin can show. */
  datatype SlotResult = Bars | Grapes | Lemons | Sevens | Nothing

  /** A record that only the ledger's own operations could have produced: never more spins
      left than the daily cap, and never more points than the best symbol on every spin. */
  ghost predicate Sane(r: Record) {
    r.triesLeft <= DailyCap && r.points <= MaxSpinPoints * r.tries
  }

  ghost predicate LedgerSane(m: map<UserId, Record>) {
    forall id :: id in m ==> Sane(m[id])
  }

  /** `Record::new`: a player who has never spun. */
  function NewRecord(name: string): (r: Record)
    ensures r.userName == name
    ensures r.points == 0 && r.tries == 0 && r.triesLeft == DailyCap
    ensures Sane(r)
  {
    Record(name, 0, 0, DailyCap)
  }

  /** `Record::spin`. The source subtracts from an unsigned counter, so it needs a spin left. */
  function Spin(r: Record, s: SlotResult): (r': Record)
    requires r.triesLeft >= 1
    ensures r'.userName == r.userName
    ensures r'.tries == r.tries + 1 && r'.triesLeft + 1 == r.triesLeft
    ensures r'.points == r.points + Points(s)
    ensures Sane(r) ==> Sane(r')
  {
    r.(tries := r.tries + 1, triesLeft := r.triesLeft - 1, points := r.points + Points(s))
  }

  /** `Ord for Record`: only the points are compared. */
  function CompareRecords(a: Record, b: Record): (o: Ordering)
    ensures o == Equal <==> a.points == b.points
    ensures o == Less <==> a.points < b.points
    ensures o == Greater <==> a.points > b.points
  {
    CompareNat(a.points, b.points)
  }

  /** The ordering is a total preorder on points, not an order on records: two records that
      differ in everything but their points still compare `Equal`. */
  lemma CompareIgnoresAllButPoints(a: Record, b: Record)
    requires a.points == b.points && a != b
    ensures CompareRecords(a, b) == Equal && CompareRecords(b, a) == Equal
  {
  }

  lemma CompareRecordsAntisymmetric(a: Record, b: Record)
    ensures CompareRecords(a, b) == Less <==> CompareRecords(b, a) == Greater
    ensures CompareRecords(a, b) == Equal <==> CompareRecords(b, a) == Equal
  {
  }

  /** `From<SlotResult> for usize`: the point table. */
  function Points(s: SlotResult): (n: nat)
    ensures n <= MaxSpinPoints
    ensures n == 0 <==> s == Nothing
  {
    match s
    case Bars => 1
    case Grapes => 2
    case Lemons => 3
    case Sevens => 5
    case Nothing => 0
  }

  /** `From<i32> for SlotResult`: the dice codes of the four winning symbols; every other
      code is `Nothing`, never an error. */
  function Decode(code: Int32): (s: SlotResult)
    ensures s == Bars <==> code == 1
    ensures s == Grapes <==> code == 22
    ensures s == Lemons <==> code == 43
    ensures s == Sevens <==> code == 64
  {
    match code
    case 1 => Bars
    case 22 => Grapes
    case 43 => Lemons
    case 64 => Sevens
    case _ => Nothing
  }

  /** The dice code each symbol is decoded from; `Nothing` gets the code 0 that the handler
      substitutes for a reply that carries no dice. */
  function DiceCode(s: SlotResult): (code: Int32)
    ensures Decode(code) == s
  {
    match s
    case Bars => 1
    case Grapes => 22
    case Lemons => 43
    case Sevens => 64
    case Nothing => 0
  }

  /** Every winning code is the canonical code of what it decodes to. */
  lemma WinningCodesRoundTrip(code: Int32)
    requires Decode(code) != Nothing
    ensures DiceCode(Decode(code)) == code
  {
  }

  /** Composed with the point table, an unknown dice code scores nothing. */
  lemma UnknownCodeScoresZero(code: Int32)
    ensures Points(Decode(code)) == 0 <==> code !in {1, 22, 43, 64}
  {
  }

  /** `From<SlotResult> for String`: the text shown after a spin. */
  function Label(s: SlotResult): (t: string)
    ensures t == "" <==> s == Nothing
  {
    match s
    case Bars => "бабки"
    case Grapes => "бабулесы"
    case Lemons => "бабло"
    case Sevens => "деньги"
    case Nothing => ""
  }

  /** Different symbols show different texts. */
  lemma LabelInjective(a: SlotResult, b: SlotResult)
    requires Label(a) == Label(b)
    ensures a == b
  {
  }

  const AllResults: seq<SlotResult> := [Bars, Grapes, Lemons, Sevens, Nothing]

  function SumPoints(ss: seq<SlotResult>): nat {
    if ss == [] then 0 else Points(ss[0]) + SumPoints(ss[1..])
  }

  /** Spins one after the other, without a refresh in between. */
  function SpinAll(r: Record, ss: seq<SlotResult>): Record
    requires |ss| <= r.triesLeft
    decreases |ss|
  {
    if ss == [] then r else SpinAll(Spin(r, ss[0]), ss[1..])
  }

  /** A run of spins credits exactly the sum of their points, counts each spin once, uses one
      allowance per spin and never renames the player. */
  lemma {:induction false} SpinAllEffect(r: Record, ss: seq<SlotResult>)
    requires |ss| <= r.triesLeft
    ensures SpinAll(r, ss).points == r.points + SumPoints(ss)
    ensures SpinAll(r, ss).tries == r.tries + |ss|
    ensures SpinAll(r, ss).triesLeft == r.triesLeft - |ss|
    ensures SpinAll(r, ss).userName == r.userName
    decreases |ss|
  {
    if ss != [] {
      SpinAllEffect(Spin(r, ss[0]), ss[1..]);
    }
  }

  /** Each symbol appears once in the table. */
  lemma AllResultsListsEachOnce()
    ensures forall s: SlotResult :: s in AllResults
    ensures forall i, j :: 0 <= i < j < |AllResults| ==> AllResults[i] != AllResults[j]
  {
    forall s: SlotResult
      ensures s in AllResults
    {
      match s
      case Bars => assert AllResults[0] == s;
      case Grapes => assert AllResults[1] == s;
      case Lemons => assert AllResults[2] == s;
      case Sevens => assert AllResults[3] == s;
      case Nothing => assert AllResults[4] == s;
    }
  }

  /** Together the five symbols are worth 11 points. */
  lemma AllResultsSum()
    ensures SumPoints(AllResults) == 11
  {
    assert [Nothing][1..] == [];
    assert [Sevens, Nothing][1..] == [Nothing];
    assert [Lemons, Sevens, Nothing][1..] == [Sevens, Nothing];
    assert [Grapes, Lemons, Sevens, Nothing][1..] == [Lemons, Sevens, Nothing];
    assert AllResults[1..] == [Grapes, Lemons, Sevens, Nothing];
  }

  /** `refresh_tries` on one entry. */
  function Refreshed(r: Record): Record {
    r.(triesLeft := DailyCap)
  }

  /** `refresh_tries` on the whole ledger, as a value. */
  function RefreshAll(m: map<UserId, Record>): (m': map<UserId, Record>)
    ensures m'.Keys == m.Keys
    ensures forall id :: id in m ==> m'[id].triesLeft == DailyCap
    ensures forall id :: id in m ==>
      m'[id].points == m[id].points && m'[id].tries == m[id].tries && m'[id].userName == m[id].userName
    ensures LedgerSane(m) ==> LedgerSane(m')
  {
    map id | id in m :: Refreshed(m[id])
  }

  /** Refreshing twice is refreshing once. */
  lemma RefreshIdempotent(m: map<UserId, Record>)
    ensures RefreshAll(RefreshAll(m)) == RefreshAll(m)
  {
  }

  /** The five symbols credited once each to a new player, three before a refresh and two
      after it (the daily cap allows no more in one day), bring that player to 11 points. */
  lemma EachSymbolOnceEarnsEleven(name: string)
    ensures SpinAll(Refreshed(SpinAll(NewRecord(name), AllResults[..3])), AllResults[3..]).points == 11
    ensures SpinAll(Refreshed(SpinAll(NewRecord(name), AllResults[..3])), AllResults[3..]).tries == 5
  {
    var day1 := SpinAll(NewRecord(name), AllResults[..3]);
    SpinAllEffect(NewRecord(name), AllResults[..3]);
    SpinAllEffect(Refreshed(day1), AllResults[3..]);
    AllResultsSum();
    SumPointsAppend(AllResults[..3], AllResults[3..]);
    assert AllResults[..3] + AllResults[3..] == AllResults;
  }

  lemma {:induction false} SumPointsAppend(a: seq<SlotResult>, b: seq<SlotResult>)
    ensures SumPoints(a + b) == SumPoints(a) + SumPoints(b)
  {
    if a != [] {
      assert (a + b)[0] == a[0] && (a + b)[1..] == a[1..] + b;
      SumPointsAppend(a[1..], b);
    } else {
      assert a + b == b;
    }
  }

  /** The ledger store: the mutable map from player to record that the bot shares between
      its command handlers and its daily timer. */
  class Ledger {
    var entries: map<UserId, Record>

    /** A ledger holding a previously saved snapshot (or an empty one). */
    constructor (snapshot: map<UserId, Record>)
      ensures entries == snapshot
    {
      entries := snapshot;
    }

    /** `refresh_tries`: walks every entry and gives it a full allowance again. */
    method Refresh()
      modifies this
      ensures entries == RefreshAll(old(entries))
    {
      var pending := entries.Keys;
      while pending != {}
        invariant pending <= entries.Keys == old(entries).Keys
        invariant forall id :: id in entries && id !in pending ==> entries[id] == Refreshed(old(entries)[id])
        invariant forall id :: id in pending ==> entries[id] == old(entries)[id]
        decreases pending
      {
        var id :| id in pending;
        entries := entries[id := Refreshed(entries[id])];
        pending := pending - {id};
      }
    }
  }
}
