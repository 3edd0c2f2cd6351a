/** Short sessions against the two stores, proved from the operations' contracts alone. */
module Scenarios {
  import opened Types
  import opened Casino
  import opened Duel
  import opened Handler

  /** A first-time player gets three spins, is refused the fourth, and spins again after the
      maintainer's refresh. */
  method SlotDay(id: UserId, name: string, maintainer: UserId, reply: Option<Int32>)
    returns (first: SlotOutcome, fourth: SlotOutcome, afterRefresh: SlotOutcome, tries: nat)
    ensures first.Spun? && first.tries == 1
    ensures fourth == Denied
    ensures afterRefresh.Spun? && afterRefresh.tries == 4
    ensures tries == 4
  {
    var ledger := new Ledger(map[]);
    ghost var s := Decode(DiceValue(reply));
    ghost var r1 := Spin(NewRecord(name), s);
    SpinAlone(map[], id, name, reply);
    first := SlotCommand(ledger, id, name, reply);
    ghost var r2 := Spin(r1, s);
    SpinAlone(ledger.entries, id, name, reply);
    var second := SlotCommand(ledger, id, name, reply);
    ghost var r3 := Spin(r2, s);
    SpinAlone(ledger.entries, id, name, reply);
    var third := SlotCommand(ledger, id, name, reply);
    assert ledger.entries == map[id := r3];
    fourth := SlotCommand(ledger, id, name, reply);
    MaintainerCommand(ledger, maintainer, maintainer);
    assert ledger.entries == map[id := Refreshed(r3)];
    SpinAlone(ledger.entries, id, name, reply);
    afterRefresh := SlotCommand(ledger, id, name, reply);
    tries := ledger.entries[id].tries;
  }

  /** One allowed Slot request on a ledger that holds at most the requesting player. */
  lemma SpinAlone(m: map<UserId, Record>, id: UserId, name: string, reply: Option<Int32>)
    requires m == map[] || (m.Keys == {id} && m[id].triesLeft >= 1)
    ensures var r := if m == map[] then NewRecord(name) else m[id];
      SlotStep(m, id, name, reply).0 == map[id := Spin(r, Decode(DiceValue(reply)))]
  {
    var r := if m == map[] then NewRecord(name) else m[id];
    assert m == map[] ==> id !in m;
    assert EntryOrNew(m, id, name) == r;
    assert m[id := Spin(r, Decode(DiceValue(reply)))] == map[id := Spin(r, Decode(DiceValue(reply)))];
  }

  /** Two players duel through the button: the first throw leaves the duel pending, a second
      press by the same player is ignored (the kept 5 beats the 4 that follows, where an
      overwriting 3 would not), the other player's smaller throw loses, and a later press
      changes neither slot nor the result. The records are created but never credited. */
  method DuelOfTwo(a: Sender, b: Sender, x: MessageId)
    returns (first: ShotResult, again: ShotResult, last: ShotResult, after: ShotResult,
             throws: (Option<Int32>, Option<Int32>), records: map<UserId, DuelRecord>)
    requires a.id != b.id
    ensures first == NotYet && again == NotYet && last == Loser(b.id) && after == NotYet
    ensures throws == (Some(5), Some(4))
    ensures records == map[a.id := NewDuelRecord(), b.id := NewDuelRecord()]
  {
    var table := new DuelTable(map[]);
    DuelCommand(table, a, Some(b), x, 20);
    first := table.RequestShot(x, a.id, false, 5);
    assert table.openDuels[x].CannotShoot(a.id) && !table.openDuels[x].CannotShoot(b.id);
    again := table.RequestShot(x, a.id, false, 3);
    last := table.RequestShot(x, b.id, false, 4);
    after := table.RequestShot(x, b.id, false, 6);
    throws := (table.openDuels[x].pushkinThrow, table.openDuels[x].dantesThrow);
    records := table.records;
  }

  /** Equal throws are a draw, and a muted participant cannot throw at all: the press would
      have decided duel `y`, whose other slot is filled, yet it leaves the slot empty. */
  method DrawAndMuted(a: Sender, b: Sender, x: MessageId, y: MessageId)
    returns (draw: ShotResult, muted: ShotResult, mutedSlot: Option<Int32>)
    requires a.id != b.id && x != y
    ensures draw == Draw && muted == NotYet && mutedSlot == None
  {
    var table := new DuelTable(map[]);
    DuelCommand(table, a, Some(b), x, 5);
    DuelCommand(table, b, Some(a), y, 5);
    var pending := table.RequestShot(x, a.id, false, 4);
    draw := table.RequestShot(x, b.id, false, 4);
    var opening := table.RequestShot(y, b.id, false, 2);
    muted := table.RequestShot(y, a.id, true, 1);
    mutedSlot := table.openDuels[y].dantesThrow;
  }
}
