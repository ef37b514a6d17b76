/** Timer handles: the slot table and its bitmap (kernel/timer.c, lib/bitmap.c). */
module TimerTable {
  import opened Common

  type Timer = int

  const POOL_MAX: nat := 20480         // TIMER_ID_POOL_MAX_SIZE
  const FIRST_SIZE: nat := 8           // STATIC_TIMER_ID_POOL_SIZE
  const LIVES: nat := 65535            // a uint16_t without 0

  // ---- Handles -----------------------------------------------------------------------------------

  /** make_timer_obj_id */
  function Handle(id: nat, life: nat): nat {
    life * 65536 + id
  }

  /** get_timer_id: the low half, as an int16_t. */
  function IdOf(handle: nat): int {
    if handle % 65536 < 32768 then handle % 65536 else handle % 65536 - 65536
  }

  /** The life id of the n-th install. */
  function LifeOf(n: nat): nat {
    1 + n % LIVES
  }

  lemma HandleParts(id: nat, life: nat)
    requires id < 32768
    ensures IdOf(Handle(id, life)) == id && Handle(id, life) / 65536 == life
  {
  }

  lemma SameHandle(id: nat, n: nat, id': nat, n': nat)
    requires id < 32768 && id' < 32768
    ensures Handle(id, LifeOf(n)) == Handle(id', LifeOf(n')) <==> id == id' && n % LIVES == n' % LIVES
  {
    HandleParts(id, LifeOf(n));
    HandleParts(id', LifeOf(n'));
  }

  // ---- The bitmap ------------------------------------------------------------------------------------

  predicate FirstZero(bits: seq<bool>, r: int) {
    if r == -1 then forall i :: 0 <= i < |bits| ==> bits[i]
    else 0 <= r < |bits| && !bits[r] && forall i :: 0 <= i < r ==> bits[i]
  }

  /** bitmap_find_first_zero_bit: byte by byte, over full bytes at once. */
  method FindFirstZero(bits: seq<bool>) returns (r: int)
    ensures FirstZero(bits, r)
  {
    var pos, byte := 0, 0;
    while byte < (|bits| + 7) / 8
      invariant 0 <= byte <= (|bits| + 7) / 8 && pos == 8 * byte
      invariant forall i :: 0 <= i < pos && i < |bits| ==> bits[i]
    {
      // 0xFF; the spare bits of the last byte are never set
      if 8 * byte + 8 <= |bits| && (forall i :: 8 * byte <= i < 8 * byte + 8 ==> bits[i]) {
        pos := pos + 8;
      } else {
        var bit := 0;
        while bit < 8
          invariant 0 <= bit <= 8 && pos == 8 * byte + bit
          invariant forall i :: 0 <= i < pos && i < |bits| ==> bits[i]
        {
          if pos >= |bits| {
            return -1;
          }
          if !bits[pos] {
            return pos;
          }
          pos := pos + 1;
          bit := bit + 1;
        }
      }
      byte := byte + 1;
    }
    return -1;
  }

  // ---- The table -----------------------------------------------------------------------------------------

  /** What is known of a timer that was given a handle: its slot and which install it was. */
  datatype Birth = Birth(home: nat, number: nat)

  /** Every handle says where and when its timer was installed. */
  ghost predicate NamedBy(objId: map<Timer, nat>, birth: map<Timer, Birth>, held: set<Timer>, installs: nat) {
    && objId.Keys == birth.Keys && held <= birth.Keys
    && (forall t :: t in birth ==> birth[t].home < 248 && birth[t].number < installs && objId[t] == Handle(birth[t].home, LifeOf(birth[t].number)))
    && (forall t, u :: t in birth && u in birth && t != u ==> birth[t].number != birth[u].number)
  }

  ghost predicate Owned(birth: map<Timer, Birth>, held: set<Timer>, i: nat) {
    exists t :: t in held && t in birth && birth[t].home == i
  }

  /** Set bits are ids in use: by one timer that is not freed, or by one about to be installed. */
  ghost predicate BookedBy(bits: seq<bool>, slot: seq<Option<Timer>>, birth: map<Timer, Birth>, held: set<Timer>, promised: set<nat>) {
    && |bits| == |slot| && held <= birth.Keys
    && (forall t :: t in held ==> birth[t].home < |bits| && bits[birth[t].home] && birth[t].home !in promised)
    && (forall t, u :: t in held && u in held && t != u ==> birth[t].home != birth[u].home)
    && (forall i :: i in promised ==> i < |bits| && bits[i] && slot[i].None?)
    && (forall i :: 0 <= i < |slot| && slot[i].Some? ==> slot[i].value in held && birth[slot[i].value].home == i)
    && (forall i :: 0 <= i < |bits| && bits[i] ==> i in promised || Owned(birth, held, i))
  }

  lemma NamedInstall(objId: map<Timer, nat>, birth: map<Timer, Birth>, held: set<Timer>, installs: nat, id: nat, t: Timer)
    requires NamedBy(objId, birth, held, installs) && t !in objId && id < 248
    ensures NamedBy(objId[t := Handle(id, LifeOf(installs))], birth[t := Birth(id, installs)], held + {t}, installs + 1)
  {
  }

  lemma BookedInstall(bits: seq<bool>, slot: seq<Option<Timer>>, birth: map<Timer, Birth>, held: set<Timer>, promised: set<nat>, id: nat, t: Timer, n: nat)
    requires BookedBy(bits, slot, birth, held, promised) && id in promised && t !in birth
    ensures id < |slot| && slot[id].None?
    ensures BookedBy(bits, slot[id := Some(t)], birth[t := Birth(id, n)], held + {t}, promised - {id})
  {
    var birth', held' := birth[t := Birth(id, n)], held + {t};
    forall i | 0 <= i < |bits| && bits[i] ensures i in promised - {id} || Owned(birth', held', i) {
      if i == id {
        assert t in held' && t in birth' && birth'[t].home == i;
      } else if i !in promised {
        var u :| u in held && u in birth && birth[u].home == i;
        assert u in held' && u in birth' && birth'[u].home == i;
      }
    }
  }

  lemma BookedFree(bits: seq<bool>, slot: seq<Option<Timer>>, birth: map<Timer, Birth>, held: set<Timer>, promised: set<nat>, t: Timer)
    requires BookedBy(bits, slot, birth, held, promised) && t in held && slot[birth[t].home] != Some(t)
    ensures BookedBy(bits[birth[t].home := false], slot, birth, held - {t}, promised)
  {
    var bits', held' := bits[birth[t].home := false], held - {t};
    forall i | 0 <= i < |bits'| && bits'[i] ensures i in promised || Owned(birth, held', i) {
      if i !in promised {
        var u :| u in held && u in birth && birth[u].home == i;
        assert u in held' && u in birth;
      }
    }
  }

  lemma BookedGrow(bits: seq<bool>, slot: seq<Option<Timer>>, birth: map<Timer, Birth>, held: set<Timer>, promised: set<nat>,
                   bits': seq<bool>, slot': seq<Option<Timer>>)
    requires BookedBy(bits, slot, birth, held, promised) && |bits'| == |slot'|
    requires bits' == bits + seq(8, i => false) && slot' == slot + seq(8, i => None)
    ensures BookedBy(bits', slot', birth, held, promised)
  {
  }

  lemma BookedReserve(bits: seq<bool>, slot: seq<Option<Timer>>, birth: map<Timer, Birth>, held: set<Timer>, promised: set<nat>, id: nat)
    requires BookedBy(bits, slot, birth, held, promised) && id < |bits| && !bits[id]
    ensures slot[id].None? && id !in promised && BookedBy(bits[id := true], slot, birth, held, promised + {id})
  {
    assert forall t :: t in held ==> birth[t].home != id;
  }

  class Table {
    var bits: seq<bool>                      // timer_id_pool_bits
    var slot: seq<Option<Timer>>             // timer_table
    var life: nat                            // __timer_life_id
    var objId: map<Timer, nat>               // timer->obj_id
    ghost var installs: nat
    ghost var birth: map<Timer, Birth>
    ghost var held: set<Timer>               // installed or not yet freed
    ghost var promised: set<nat>             // ids handed out and not yet installed

    ghost predicate Valid()
      reads this
    {
      && |bits| % 8 == 0 && 8 <= |bits| <= 248 && life == LifeOf(installs)
      && NamedBy(objId, birth, held, installs) && BookedBy(bits, slot, birth, held, promised)
    }

    constructor ()
      ensures Valid() && |slot| == FIRST_SIZE && held == {} && promised == {} && installs == 0
    {
      bits, slot := seq(FIRST_SIZE, i => false), seq(FIRST_SIZE, i => None);
      life, objId, installs, birth, held, promised := 1, map[], 0, map[], {}, {};
    }

    /** bitmap_create takes its size as a uint8_t, and refuses 0; `room`: what the two allocations ask for is there. */
    method Grow(room: bool) returns (ok: bool)
      requires Valid()
      modifies this`bits, this`slot
      ensures Valid() && ok == (|old(slot)| < 248 && room)
      ensures ok ==> |slot| == |old(slot)| + 8 && slot[..|old(slot)|] == old(slot) && bits[..|old(slot)|] == old(bits) && !bits[|old(slot)|]
      ensures !ok ==> slot == old(slot) && bits == old(bits)
    {
      var size := |slot| + 8;
      if |slot| >= POOL_MAX || size % 256 == 0 || !room {
        return false;
      }
      var moreBits, moreSlots := bits + seq(8, i => false), slot + seq(8, i => None);
      BookedGrow(bits, slot, birth, held, promised, moreBits, moreSlots);
      bits, slot := moreBits, moreSlots;
      ok := true;
    }

    /** get_unused_timer_id */
    method GetUnused(room: bool) returns (id: int)
      requires Valid()
      modifies this`bits, this`slot, this`promised
      ensures Valid() && |slot| >= |old(slot)| && slot[..|old(slot)|] == old(slot)
      ensures id >= 0 ==> id < |slot| && slot[id].None? && promised == old(promised) + {id} && id !in old(promised)
      ensures id < 0 <==> (|old(slot)| == 248 || !room) && forall i :: 0 <= i < |old(slot)| ==> old(bits)[i]
      ensures id < 0 ==> slot == old(slot) && promised == old(promised)
    {
      id := FindFirstZero(bits);
      if id < 0 {
        var ok := Grow(room);
        if !ok {
          return;
        }
        id := FindFirstZero(bits);
      }
      BookedReserve(bits, slot, birth, held, promised, id);
      bits := bits[id := true];
      promised := promised + {id};
    }

    /** __timer_id_install: the slot is free, as its abort demands. */
    method Install(id: nat, t: Timer)
      requires Valid() && id in promised && t !in objId
      modifies this
      ensures Valid() && old(slot)[id].None? && slot == old(slot)[id := Some(t)]
      ensures birth == old(birth)[t := Birth(id, old(installs))] && held == old(held) + {t} && promised == old(promised) - {id}
      ensures installs == old(installs) + 1
    {
      NamedInstall(objId, birth, held, installs, id, t);
      BookedInstall(bits, slot, birth, held, promised, id, t, installs);
      NextLife(installs);
      hide LifeOf, Handle, NamedBy, BookedBy;
      slot := slot[id := Some(t)];
      objId := objId[t := Handle(id, life)];
      birth := birth[t := Birth(id, installs)];
      held := held + {t};
      promised := promised - {id};
      installs := installs + 1;
      life := (life + 1) % 65536;
      if life == 0 {
        life := 1;
      }
    }

    /** __timer_id_uninstall */
    method Uninstall(t: Timer) returns (ok: bool)
      requires Valid() && t in held
      modifies this`slot
      ensures Valid() && ok == (old(slot)[birth[t].home] == Some(t))
      ensures slot == if ok then old(slot)[birth[t].home := None] else old(slot)
    {
      HandleParts(birth[t].home, LifeOf(birth[t].number));
      var id := IdOf(objId[t]);
      if slot[id] == Some(t) {
        slot := slot[id := None];
        return true;
      }
      return false;
    }

    /** __free_timer: an uninstalled timer gives its id back. */
    method Free(t: Timer)
      requires Valid() && t in held && slot[birth[t].home] != Some(t)
      modifies this`bits, this`held
      ensures Valid() && held == old(held) - {t} && bits == old(bits)[birth[t].home := false]
    {
      HandleParts(birth[t].home, LifeOf(birth[t].number));
      var id := IdOf(objId[t]);
      BookedFree(bits, slot, birth, held, promised, t);
      bits := bits[id := false];
      held := held - {t};
    }

    /** timer_get; the answer is a timer that is installed, under this very handle. */
    method Get(handle: nat) returns (r: Option<Timer>)
      requires Valid()
      ensures r.Some? ==> r.value in held && objId[r.value] == handle && birth[r.value].home < |slot| && slot[birth[r.value].home] == r
      ensures r.None? ==> forall t :: t in held && slot[birth[t].home] == Some(t) ==> objId[t] != handle
    {
      var id := IdOf(handle);
      forall t | t in held && slot[birth[t].home] == Some(t) && objId[t] == handle ensures birth[t].home == id {
        HandleParts(birth[t].home, LifeOf(birth[t].number));
      }
      if id < 0 || id >= |slot| {
        return None;
      }
      r := slot[id];
      if r.Some? && objId[r.value] != handle {
        r := None;
      }
    }

    /** Live handles are all different. */
    lemma HandlesDiffer(t: Timer, u: Timer)
      requires Valid() && t in held && u in held && t != u
      ensures objId[t] != objId[u]
    {
      SameHandle(birth[t].home, birth[t].number, birth[u].home, birth[u].number);
    }

    /**
     What a handle resolves to, long after it was given out: the timer in its slot,
     if the number of installs between the two is a multiple of 65535; so the handle
     of a timer that is gone resolves to nothing, or else that multiple is not zero.
     */
    lemma HandleMeans(t: Timer, u: Timer)
      requires Valid() && t in birth && u in held && slot[birth[u].home] == Some(u)
      ensures objId[t] == objId[u] <==> birth[t].home == birth[u].home && (birth[u].number - birth[t].number) % LIVES == 0
      ensures t != u ==> birth[t].number != birth[u].number
    {
      SameHandle(birth[t].home, birth[t].number, birth[u].home, birth[u].number);
      ModDifference(birth[u].number, birth[t].number);
    }
  }

  lemma NextLife(n: nat)
    ensures LifeOf(n + 1) == if (LifeOf(n) + 1) % 65536 == 0 then 1 else (LifeOf(n) + 1) % 65536
  {
  }

  lemma ModDifference(a: nat, b: nat)
    ensures a % LIVES == b % LIVES <==> (a - b) % LIVES == 0
  {
    var d := a - b;
    assert a == LIVES * (a / LIVES) + a % LIVES && b == LIVES * (b / LIVES) + b % LIVES;
  }
}
