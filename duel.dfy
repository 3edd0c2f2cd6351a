/** The duel table: lifetime win/lose records and the open duels, each a two-slot throw
    state machine keyed by the message that announced it. */
module Duel {
  import opened Types

  /** What a throw leads to. `NotYet` is the source's `Shoot::None`: the duel is unknown or
      one of its slots is still empty. */
  datatype ShotResult = Loser(loser: UserId) | Draw | NotYet

  /** A player's lifetime duel record. */
  datatype DuelRecord = DuelRecord(win: nat, lose: nat)

  /** `DuelRecord::new`. */
  function NewDuelRecord(): (r: DuelRecord)
    ensures r.win == 0 && r.lose == 0
  {
    DuelRecord(0, 0)
  }

  /** `Ord for DuelRecord`: only the wins are compared. */
  function CompareDuelRecords(a: DuelRecord, b: DuelRecord): (o: Ordering)
    ensures o == Equal <==> a.win == b.win
    ensures o == Less <==> a.win < b.win
    ensures o == Greater <==> a.win > b.win
  {
    CompareNat(a.win, b.win)
  }

  /** The comparison of two completed throws: the smaller throw loses, equal throws draw. */
  function Verdict(pushkin: UserId, dantes: UserId, p: Int32, d: Int32): (v: ShotResult)
    ensures v != NotYet
    ensures v == Draw <==> p == d
    ensures v.Loser? ==> (v.loser == pushkin && p < d) || (v.loser == dantes && d < p)
  {
    if p < d then Loser(pushkin) else if p == d then Draw else Loser(dantes)
  }

  /** Which participant is called first does not change the outcome. */
  lemma VerdictSymmetric(a: UserId, b: UserId, p: Int32, d: Int32)
    ensures Verdict(a, b, p, d) == Verdict(b, a, d, p)
  {
  }

  /** One open duel. Everything but the two throws is fixed when the duel is announced. */
  class OneDuel {
    const time: Int64
    const msg: MessageId
    const pushkinName: string
    const pushkin: UserId
    var pushkinThrow: Option<Int32>
    const dantesName: string
    const dantes: UserId
    var dantesThrow: Option<Int32>

    /** Someone who challenges themselves holds both slots, and every throw fills both. */
    ghost predicate Valid()
      reads this
    {
      pushkin == dantes ==> pushkinThrow == dantesThrow
    }

    /** `OneDuel::new`: both slots empty. */
    constructor (pushkin: UserId, dantes: UserId, pushkinName: string, dantesName: string,
                 x: MessageId, t: Int64)
      ensures Valid()
      ensures this.pushkin == pushkin && this.dantes == dantes
      ensures this.pushkinName == pushkinName && this.dantesName == dantesName
      ensures msg == x && time == t
      ensures pushkinThrow == None && dantesThrow == None
    {
      this.time := t;
      this.msg := x;
      this.pushkinName := pushkinName;
      this.pushkin := pushkin;
      this.pushkinThrow := None;
      this.dantesName := dantesName;
      this.dantes := dantes;
      this.dantesThrow := None;
    }

    /** `cannot_shoot`: only a participant whose own slot is still empty may throw. */
    function CannotShoot(x: UserId): (b: bool)
      reads this
      ensures !b <==> (x == pushkin && pushkinThrow == None) || (x == dantes && dantesThrow == None)
    {
      if x == pushkin && pushkinThrow.None? then false
      else if x == dantes && dantesThrow.None? then false
      else true
    }

    /** `not_ready`: some slot is still empty, which is exactly when some participant may
        still throw. */
    predicate NotReady(): (r: bool)
      reads this
      ensures r <==> !CannotShoot(pushkin) || !CannotShoot(dantes)
    {
      pushkinThrow.None? || dantesThrow.None?
    }

    /** `set_value`: writes the slot of each participant equal to `id`, whether or not it was
        filled; any other `id` changes nothing. */
    method SetValue(id: UserId, value: Int32)
      modifies this
      ensures pushkinThrow == if id == pushkin then Some(value) else old(pushkinThrow)
      ensures dantesThrow == if id == dantes then Some(value) else old(dantesThrow)
      ensures old(Valid()) ==> Valid()
      ensures id == pushkin || id == dantes ==> CannotShoot(id)
    {
      if id == pushkin {
        pushkinThrow := Some(value);
      }
      if id == dantes {
        dantesThrow := Some(value);
      }
    }

    /** `opponent_name`: for the loser `id`, the pair (winner's name, loser's name). An `id`
        other than the first participant is treated as the second participant. */
    function OpponentName(id: UserId): (names: (string, string))
      reads this
      ensures id == pushkin ==> names.0 == dantesName && names.1 == pushkinName
      ensures id == dantes && dantes != pushkin ==> names.0 == pushkinName && names.1 == dantesName
      ensures id != pushkin ==> names == (pushkinName, dantesName)
    {
      if id == pushkin then (dantesName, pushkinName) else (pushkinName, dantesName)
    }

    /** `results`: both throws, reachable only once both slots are filled. */
    function Results(): (r: (Int32, Int32))
      reads this
      requires !NotReady()
      ensures pushkinThrow == Some(r.0) && dantesThrow == Some(r.1)
    {
      (pushkinThrow.value, dantesThrow.value)
    }
  }

  /** The duel store: lifetime records and the open duels. */
  class DuelTable {
    var records: map<UserId, DuelRecord>
    var openDuels: map<MessageId, OneDuel>

    /** Each open duel is its own object, is kept under the message that announced it, and is
        consistent. */
    ghost predicate Valid()
      reads this, openDuels.Values
    {
      // Distinct keys hold distinct objects; this also follows from the next clause, since one
      // object under two keys would need two `msg` values. It is kept as the frame fact the
      // methods rely on.
      && (forall x, y :: x in openDuels && y in openDuels && x != y ==> openDuels[x] != openDuels[y])
      && (forall x :: x in openDuels ==> openDuels[x].msg == x && openDuels[x].Valid())
    }

    /** `Duel::try_new` once the saved records are loaded: no duel is open. */
    constructor (saved: map<UserId, DuelRecord>)
      ensures Valid()
      ensures records == saved && openDuels == map[]
    {
      records := saved;
      openDuels := map[];
    }

    /** `start_duel`: gives both players a record if they lack one and opens a fresh duel under
        `x`, replacing any duel already kept there. */
    method StartDuel(pushkin: UserId, dantes: UserId, user1: string, user2: string,
                     x: MessageId, t: Int64)
      requires Valid()
      modifies this
      ensures Valid()
      ensures records.Keys == old(records).Keys + {pushkin, dantes}
      ensures forall id :: id in old(records) ==> records[id] == old(records)[id]
      ensures forall id :: id in records && id !in old(records) ==> records[id] == NewDuelRecord()
      ensures openDuels.Keys == old(openDuels).Keys + {x}
      ensures forall k :: k in old(openDuels) && k != x ==> openDuels[k] == old(openDuels)[k]
      ensures fresh(openDuels[x])
      ensures openDuels[x].pushkin == pushkin && openDuels[x].dantes == dantes
      ensures openDuels[x].pushkinName == user1 && openDuels[x].dantesName == user2
      ensures openDuels[x].msg == x && openDuels[x].time == t
      ensures openDuels[x].pushkinThrow == None && openDuels[x].dantesThrow == None
    {
      if pushkin !in records {
        records := records[pushkin := NewDuelRecord()];
      }
      if dantes !in records {
        records := records[dantes := NewDuelRecord()];
      }
      var d := new OneDuel(pushkin, dantes, user1, user2, x, t);
      openDuels := openDuels[x := d];
    }

    /** `shoot`: fills the thrower's slot of duel `x` and, once both slots are filled, compares
        the throws. It neither credits the records nor closes the duel. */
    method Shoot(x: MessageId, id: UserId, value: Int32) returns (verdict: ShotResult)
      requires Valid()
      modifies if x in openDuels then {openDuels[x]} else {}
      ensures Valid()
      ensures records == old(records) && openDuels == old(openDuels)
      ensures x !in openDuels ==> verdict == NotYet
      ensures x in openDuels ==>
        && openDuels[x].pushkinThrow == (if id == openDuels[x].pushkin then Some(value) else old(openDuels[x].pushkinThrow))
        && openDuels[x].dantesThrow == (if id == openDuels[x].dantes then Some(value) else old(openDuels[x].dantesThrow))
      ensures x in openDuels ==> (verdict == NotYet <==> openDuels[x].NotReady())
      ensures x in openDuels && !openDuels[x].NotReady() ==>
        verdict == Verdict(openDuels[x].pushkin, openDuels[x].dantes,
                           openDuels[x].pushkinThrow.value, openDuels[x].dantesThrow.value)
      ensures forall k :: k in openDuels && k != x ==>
        openDuels[k].pushkinThrow == old(openDuels[k].pushkinThrow) && openDuels[k].dantesThrow == old(openDuels[k].dantesThrow)
      // A player who challenged themselves settles the duel with one throw, as a draw.
      ensures x in openDuels && id == openDuels[x].pushkin == openDuels[x].dantes ==> verdict == Draw
    {
      if x !in openDuels {
        return NotYet;
      }
      var d := openDuels[x];
      d.SetValue(id, value);
      if d.NotReady() {
        return NotYet;
      }
      var (p, q) := d.Results();
      verdict := Verdict(d.pushkin, d.dantes, p, q);
    }

    /** A press of the duel's button (src/duel.rs callback): a player who may not throw in a
        known duel, or who is currently muted, is ignored; everyone else throws. */
    method RequestShot(x: MessageId, id: UserId, restricted: bool, value: Int32) returns (verdict: ShotResult)
      requires Valid()
      modifies if x in openDuels then {openDuels[x]} else {}
      ensures Valid()
      ensures records == old(records) && openDuels == old(openDuels)
      ensures x !in openDuels ==> verdict == NotYet
      ensures x in openDuels && (old(openDuels[x].CannotShoot(id)) || restricted) ==>
        verdict == NotYet && unchanged(openDuels[x])
      ensures x in openDuels && !old(openDuels[x].CannotShoot(id)) && !restricted ==>
        && openDuels[x].pushkinThrow == (if id == openDuels[x].pushkin then Some(value) else old(openDuels[x].pushkinThrow))
        && openDuels[x].dantesThrow == (if id == openDuels[x].dantes then Some(value) else old(openDuels[x].dantesThrow))
        && openDuels[x].CannotShoot(id)
        && (verdict == NotYet <==> openDuels[x].NotReady())
        && (!openDuels[x].NotReady() ==>
              verdict == Verdict(openDuels[x].pushkin, openDuels[x].dantes,
                                 openDuels[x].pushkinThrow.value, openDuels[x].dantesThrow.value))
      // A filled slot is never overwritten, so a duel is decided at most once.
      ensures x in openDuels ==>
        && (old(openDuels[x].pushkinThrow).Some? ==> openDuels[x].pushkinThrow == old(openDuels[x].pushkinThrow))
        && (old(openDuels[x].dantesThrow).Some? ==> openDuels[x].dantesThrow == old(openDuels[x].dantesThrow))
      ensures x in openDuels && !old(openDuels[x].NotReady()) ==> verdict == NotYet
    {
      if x in openDuels {
        var d := openDuels[x];
        if d.CannotShoot(id) || restricted {
          return NotYet;
        }
      }
      verdict := Shoot(x, id, value);
    }
  }
}
