/**
 * The input-mapper ring. The driver keeps its mapper entries in a list sorted by slot; the card walks
 * them through `next` fields in its own RAM, of which every change of the list patches at most two.
 * The managers of the two mappers keep a placeholder listed so that the ring is never empty.
 */
module ImapRing {

  /**
   * A listed entry: the slot that feeds it, the resource that consumes it, and its RAM address.
   * `client` tells clients' entries from the placeholder; `stamp` numbers entries as they are added.
   */
  datatype Entry = Entry(slot: nat, user: nat, addr: nat, client: bool, stamp: nat)

  /** One RAM record of the card. */
  datatype Cell = Cell(arc: nat, user: nat, next: nat)

  /** The SRC mapper's write operation sets the user field, the DAIO mapper's leaves it. */
  datatype Kind = SrcImp | Daio

  function MapOp(kind: Kind, ram: map<nat, Cell>, slot: nat, user: nat, addr: nat, next: nat): (ram': map<nat, Cell>) {
    var user' := if kind.SrcImp? then user else if addr in ram then ram[addr].user else 0;
    ram[addr := Cell(slot, user', next)]
  }

  // ---------------------------------------------------------------- list operations

  /** Where an entry is inserted: before the first listed one with a larger slot. */
  function InsertPos(list: seq<Entry>, slot: nat): (k: nat)
    ensures k <= |list|
    ensures forall i :: 0 <= i < k ==> list[i].slot <= slot
    ensures k < |list| ==> list[k].slot > slot
  {
    if list == [] || list[0].slot > slot then 0 else 1 + InsertPos(list[1..], slot)
  }

  function Insert(list: seq<Entry>, k: nat, e: Entry): (list': seq<Entry>)
    requires k <= |list|
  {
    list[..k] + [e] + list[k..]
  }

  function Remove(list: seq<Entry>, k: nat): (list': seq<Entry>)
    requires k < |list|
  {
    list[..k] + list[k + 1..]
  }

  /** Cyclic neighbours of a position. */
  function After(i: nat, n: nat): (j: nat) { if i + 1 >= n then 0 else i + 1 }

  function Before(i: nat, n: nat): (j: nat)
    requires n > 0
  {
    if i == 0 then n - 1 else i - 1
  }

  datatype Mapper = Mapper(list: seq<Entry>, ram: map<nat, Cell>)

  /** Adds an entry: it is linked in and two RAM records are written, its own and its predecessor's. */
  function MapperAdd(kind: Kind, m: Mapper, e: Entry): (m': Mapper) {
    if m.list == [] then Mapper([e], MapOp(kind, m.ram, e.slot, e.user, e.addr, e.addr))
    else
      var n, k := |m.list|, InsertPos(m.list, e.slot);
      var pre, pos := m.list[Before(k, n)], m.list[if k < n then k else 0];
      var ram1 := MapOp(kind, m.ram, e.slot, e.user, e.addr, pos.addr);
      Mapper(Insert(m.list, k, e), MapOp(kind, ram1, pre.slot, pre.user, pre.addr, e.addr))
  }

  /** Deletes entry `k`: only its predecessor's record is rewritten; the last entry clears record 0 instead. */
  function MapperDelete(kind: Kind, m: Mapper, k: nat): (m': Mapper)
    requires k < |m.list|
  {
    var n := |m.list|;
    if n == 1 then Mapper([], MapOp(kind, m.ram, 0, 0, 0, 0))
    else
      var pre, next := m.list[Before(k, n)], m.list[After(k, n)];
      Mapper(Remove(m.list, k), MapOp(kind, m.ram, pre.slot, pre.user, pre.addr, next.addr))
  }

  // ---------------------------------------------------------------- the ring in RAM

  predicate Distinct(list: seq<Entry>) { forall i, j :: 0 <= i < j < |list| ==> list[i].addr != list[j].addr }

  /** The record of entry `i` describes it and points at the next entry, the last at the first. */
  predicate CellOk(kind: Kind, list: seq<Entry>, ram: map<nat, Cell>, i: nat)
    requires i < |list|
  {
    var e := list[i];
    && e.addr in ram && ram[e.addr].arc == e.slot && ram[e.addr].next == list[After(i, |list|)].addr
    && (kind.SrcImp? ==> ram[e.addr].user == e.user)
  }

  predicate RingOk(kind: Kind, list: seq<Entry>, ram: map<nat, Cell>) {
    forall i :: 0 <= i < |list| ==> CellOk(kind, list, ram, i)
  }

  /** An addition writes the records of the new entry and of its predecessor; all others, and what they say, stay. */
  lemma AddWritesTwoRecords(kind: Kind, m: Mapper, e: Entry, a: nat)
    requires a != e.addr && (m.list != [] ==> a != m.list[Before(InsertPos(m.list, e.slot), |m.list|)].addr)
    ensures a in MapperAdd(kind, m, e).ram <==> a in m.ram
    ensures a in m.ram ==> MapperAdd(kind, m, e).ram[a] == m.ram[a]
  {
  }

  /** The DAIO mapper leaves the user field of a record it rewrites as it was. */
  lemma DaioKeepsUser(ram: map<nat, Cell>, slot: nat, user: nat, addr: nat, next: nat, a: nat)
    requires a in ram
    ensures a in MapOp(Daio, ram, slot, user, addr, next)
    ensures MapOp(Daio, ram, slot, user, addr, next)[a].user == ram[a].user
    ensures a != addr ==> MapOp(Daio, ram, slot, user, addr, next)[a] == ram[a]
  {
  }

  /** Deleting the only entry writes record 0, which then names slot 0 and itself, and no other record. */
  lemma SoleDeletionResetsRecord0(kind: Kind, m: Mapper, a: nat)
    requires |m.list| == 1
    ensures var m' := MapperDelete(kind, m, 0);
            && m'.list == [] && 0 in m'.ram && m'.ram[0].arc == 0 && m'.ram[0].next == 0
            && (kind.SrcImp? || 0 !in m.ram ==> m'.ram[0].user == 0)
            && (a != 0 ==> (a in m'.ram <==> a in m.ram) && (a in m.ram ==> m'.ram[a] == m.ram[a]))
  {
  }

  lemma RemovedElements(list: seq<Entry>, k: nat)
    requires k < |list|
    ensures |Remove(list, k)| == |list| - 1
    ensures forall i :: 0 <= i < |list| - 1 ==> Remove(list, k)[i] == list[if i < k then i else i + 1]
  {
  }

  lemma InsertedElements(list: seq<Entry>, k: nat, e: Entry)
    requires k <= |list|
    ensures |Insert(list, k, e)| == |list| + 1
    ensures Insert(list, k, e)[k] == e
    ensures forall i :: 0 <= i < k ==> Insert(list, k, e)[i] == list[i]
    ensures forall i :: k < i <= |list| ==> Insert(list, k, e)[i] == list[i - 1]
  {
  }

  lemma InsertKeepsDistinct(list: seq<Entry>, k: nat, e: Entry)
    requires k <= |list| && Distinct(list) && forall i :: 0 <= i < |list| ==> list[i].addr != e.addr
    ensures Distinct(Insert(list, k, e))
  {
    hide Insert;
    InsertedElements(list, k, e);
  }

  /** Two patched records are enough to keep the ring whole, and no record is needed to start one. */
  lemma AddKeepsRing(kind: Kind, m: Mapper, e: Entry)
    requires Distinct(m.list) && forall i :: 0 <= i < |m.list| ==> m.list[i].addr != e.addr
    requires |m.list| <= 1 || RingOk(kind, m.list, m.ram)
    ensures var m' := MapperAdd(kind, m, e);
            Distinct(m'.list) && RingOk(kind, m'.list, m'.ram)
  {
    hide Insert, InsertPos;
    if m.list != [] {
      MapperAddList(kind, m, e);
      var k := InsertPos(m.list, e.slot);
      InsertKeepsDistinct(m.list, k, e);
      InsertedElements(m.list, k, e);
      forall i | 0 <= i <= |m.list|
        ensures CellOk(kind, Insert(m.list, k, e), MapperAdd(kind, m, e).ram, i)
      {
        AddedCell(kind, m, e, i);
      }
    }
  }

  lemma AddedCell(kind: Kind, m: Mapper, e: Entry, i: nat)
    requires Distinct(m.list) && forall i :: 0 <= i < |m.list| ==> m.list[i].addr != e.addr
    requires |m.list| == 1 || RingOk(kind, m.list, m.ram)
    requires m.list != [] && i <= |m.list|
    ensures CellOk(kind, Insert(m.list, InsertPos(m.list, e.slot), e), MapperAdd(kind, m, e).ram, i)
  {
    hide Insert, InsertPos, RingOk;
    var n, k := |m.list|, InsertPos(m.list, e.slot);
    InsertedElements(m.list, k, e);
    assert m.list[Before(k, n)].addr != e.addr;
    if i != k {
      var j := if i < k then i else i - 1;
      if j != Before(k, n) {
        OldCell(kind, m, j);
        assert m.list[j].addr != m.list[Before(k, n)].addr;
      }
    }
  }

  lemma MapperAddList(kind: Kind, m: Mapper, e: Entry)
    ensures MapperAdd(kind, m, e).list == Insert(m.list, InsertPos(m.list, e.slot), e)
  {
    if m.list == [] {
      assert Insert(m.list, 0, e) == [e];
    }
  }

  lemma OldCell(kind: Kind, m: Mapper, i: nat)
    requires RingOk(kind, m.list, m.ram) && i < |m.list|
    ensures CellOk(kind, m.list, m.ram, i)
  {
  }

  lemma AddrUnique(list: seq<Entry>, i: nat, j: nat)
    requires Distinct(list) && i < |list| && j < |list| && list[i].addr == list[j].addr
    ensures i == j
  {
  }

  lemma DeleteKeepsRing(kind: Kind, m: Mapper, k: nat)
    requires k < |m.list| && |m.list| > 1 && Distinct(m.list) && RingOk(kind, m.list, m.ram)
    ensures var m' := MapperDelete(kind, m, k);
            Distinct(m'.list) && RingOk(kind, m'.list, m'.ram)
  {
    var m' := MapperDelete(kind, m, k);
    var n := |m.list|;
    var b := Before(k, n);
    forall i | 0 <= i < n - 1
      ensures CellOk(kind, m'.list, m'.ram, i)
    {
      var j := if i < k then i else i + 1;
      assert m'.list[i] == m.list[j];
      assert CellOk(kind, m.list, m.ram, j);
      assert CellOk(kind, m.list, m.ram, b);
    }
  }

  /** The record reached from address `a` after following `steps` next fields. */
  function Follow(ram: map<nat, Cell>, a: nat, steps: nat): (b: nat) {
    if steps == 0 then a
    else
      var c := Follow(ram, a, steps - 1);
      if c in ram then ram[c].next else c
  }

  function Wrap(i: nat, n: nat): (j: nat)
    requires n > 0
  {
    if i == 0 then 0 else After(Wrap(i - 1, n), n)
  }

  /** The card, starting at the first entry, visits all entries in list order and then starts over. */
  lemma {:induction false} FollowVisitsInOrder(kind: Kind, list: seq<Entry>, ram: map<nat, Cell>, steps: nat)
    requires list != [] && RingOk(kind, list, ram)
    ensures Wrap(steps, |list|) < |list|
    ensures Follow(ram, list[0].addr, steps) == list[Wrap(steps, |list|)].addr
  {
    if steps > 0 {
      FollowVisitsInOrder(kind, list, ram, steps - 1);
      assert CellOk(kind, list, ram, Wrap(steps - 1, |list|));
    }
  }

  lemma {:induction false} WrapIsIdentityBelow(i: nat, n: nat)
    requires i <= n && n > 0
    ensures Wrap(i, n) == if i < n then i else 0
  {
    if i > 0 {
      WrapIsIdentityBelow(i - 1, n);
    }
  }

  /**
   * Exactly one cycle: the first |list| records visited are the listed ones, each once, and the next is the
   * first again.
   */
  lemma RingIsOneCycle(kind: Kind, list: seq<Entry>, ram: map<nat, Cell>)
    requires list != [] && Distinct(list) && RingOk(kind, list, ram)
    ensures forall i :: 0 <= i < |list| ==> Follow(ram, list[0].addr, i) == list[i].addr
    ensures forall i, j :: 0 <= i < j < |list| ==> Follow(ram, list[0].addr, i) != Follow(ram, list[0].addr, j)
    ensures Follow(ram, list[0].addr, |list|) == list[0].addr
  {
    forall i | 0 <= i <= |list|
      ensures Follow(ram, list[0].addr, i) == list[if i < |list| then i else 0].addr
    {
      FollowVisitsInOrder(kind, list, ram, i);
      WrapIsIdentityBelow(i, |list|);
    }
  }

  // ---------------------------------------------------------------- order

  /** By slot, and entries of one slot in the order they were added. */
  predicate Precedes(a: Entry, b: Entry) { a.slot < b.slot || (a.slot == b.slot && a.stamp < b.stamp) }

  predicate Ordered(list: seq<Entry>) { forall i, j :: 0 <= i < j < |list| ==> Precedes(list[i], list[j]) }

  lemma OrderedAt(list: seq<Entry>, i: nat, j: nat)
    requires Ordered(list) && i < j < |list|
    ensures Precedes(list[i], list[j])
  {
  }

  lemma AfterInsertPos(list: seq<Entry>, e: Entry, j: nat)
    requires Ordered(list) && InsertPos(list, e.slot) <= j < |list|
    ensures Precedes(e, list[j])
  {
    var k := InsertPos(list, e.slot);
    if k < j {
      OrderedAt(list, k, j);
    }
  }

  lemma BeforeInsertPos(list: seq<Entry>, e: Entry, i: nat)
    requires i < InsertPos(list, e.slot) && list[i].stamp < e.stamp
    ensures Precedes(list[i], e)
  {
  }

  lemma InsertKeepsOrder(list: seq<Entry>, e: Entry)
    requires Ordered(list) && forall i :: 0 <= i < |list| ==> list[i].stamp < e.stamp
    ensures Ordered(Insert(list, InsertPos(list, e.slot), e))
  {
    hide Insert, InsertPos, Ordered, Precedes;
    InsertedElements(list, InsertPos(list, e.slot), e);
    var k := InsertPos(list, e.slot);
    var list' := Insert(list, k, e);
    forall i, j | 0 <= i < j < |list'|
      ensures Precedes(list'[i], list'[j])
    {
      if i == k {
        assert list'[j] == list[j - 1];
        AfterInsertPos(list, e, j - 1);
      } else if j == k {
        BeforeInsertPos(list, e, i);
      } else {
        var i0, j0 := if i < k then i else i - 1, if j < k then j else j - 1;
        OrderedAt(list, i0, j0);
      }
    }
    AllPrecede(list');
  }

  lemma AllPrecede(list: seq<Entry>)
    requires forall i, j :: 0 <= i < j < |list| ==> Precedes(list[i], list[j])
    ensures Ordered(list)
  {
  }

  // ---------------------------------------------------------------- the managers

  /** A manager: its mapper, whether the placeholder is listed, and the number the next entry gets. */
  datatype Manager = Manager(kind: Kind, m: Mapper, placeholder: bool, clock: nat)

  function Placeholder(stamp: nat): (e: Entry) { Entry(0, 0, 0, false, stamp) }

  /** The manager as created: the placeholder listed, nothing written to RAM yet. */
  function Created(kind: Kind, ram: map<nat, Cell>): (g: Manager) {
    Manager(kind, Mapper([Placeholder(0)], ram), true, 1)
  }

  function IndexOf(list: seq<Entry>, addr: nat): (k: nat)
    ensures k <= |list|
    ensures k < |list| ==> list[k].addr == addr
    ensures k == |list| ==> forall i :: 0 <= i < |list| ==> list[i].addr != addr
  {
    if list == [] || list[0].addr == addr then 0 else 1 + IndexOf(list[1..], addr)
  }

  /** Adding a client's entry; one for RAM address 0 first takes the placeholder's place. */
  function ImapAdd(g: Manager, slot: nat, user: nat, addr: nat): (g': Manager)
    requires g.placeholder ==> IndexOf(g.m.list, 0) < |g.m.list|
  {
    var replace := addr == 0 && g.placeholder;
    var m := if replace then MapperDelete(g.kind, g.m, IndexOf(g.m.list, 0)) else g.m;
    Manager(g.kind, MapperAdd(g.kind, m, Entry(slot, user, addr, true, g.clock)),
            g.placeholder && !replace, g.clock + 1)
  }

  /** Deleting a client's entry; when it was the last one the placeholder is listed again. */
  function ImapDelete(g: Manager, addr: nat): (g': Manager)
    requires IndexOf(g.m.list, addr) < |g.m.list|
  {
    var m := MapperDelete(g.kind, g.m, IndexOf(g.m.list, addr));
    if m.list == [] then Manager(g.kind, MapperAdd(g.kind, m, Placeholder(g.clock)), true, g.clock + 1)
    else Manager(g.kind, m, g.placeholder, g.clock)
  }

  /** The placeholder is listed exactly when its flag is set, and all other entries are clients'. */
  predicate FlagOk(list: seq<Entry>, placeholder: bool) {
    && (forall i :: 0 <= i < |list| && !list[i].client ==> placeholder && list[i] == Placeholder(list[i].stamp))
    && (placeholder ==> exists i :: 0 <= i < |list| && !list[i].client)
  }

  predicate ListOk(list: seq<Entry>, placeholder: bool, clock: nat) {
    && Distinct(list) && Ordered(list) && FlagOk(list, placeholder)
    && forall i :: 0 <= i < |list| ==> list[i].stamp < clock
  }

  /** What both operations keep. */
  predicate ManagerOk(g: Manager) {
    && g.m.list != [] && ListOk(g.m.list, g.placeholder, g.clock)
    && (|g.m.list| > 1 ==> RingOk(g.kind, g.m.list, g.m.ram))
  }

  /** A client's live address: listed, and not the placeholder's. */
  predicate Live(g: Manager, addr: nat) {
    exists i :: 0 <= i < |g.m.list| && g.m.list[i].addr == addr && g.m.list[i].client
  }

  lemma AddrDiffers(list: seq<Entry>, i: nat, j: nat)
    requires Distinct(list) && i < |list| && j < |list| && i != j
    ensures list[i].addr != list[j].addr
  {
  }

  lemma ClientIndex(g: Manager, k: nat, addr: nat)
    requires ManagerOk(g) && k < |g.m.list| && g.m.list[k].addr == addr && g.m.list[k].client
    ensures Live(g, addr) && IndexOf(g.m.list, addr) == k
  {
    AddrUnique(g.m.list, k, IndexOf(g.m.list, addr));
  }

  lemma PlaceholderIndex(g: Manager)
    requires ManagerOk(g) && g.placeholder
    ensures IndexOf(g.m.list, 0) < |g.m.list| && !g.m.list[IndexOf(g.m.list, 0)].client
    ensures forall i :: 0 <= i < |g.m.list| && i != IndexOf(g.m.list, 0) ==> g.m.list[i].client
  {
    var i :| 0 <= i < |g.m.list| && !g.m.list[i].client;
    assert g.m.list[i].addr == 0;
    AddrUnique(g.m.list, i, IndexOf(g.m.list, 0));
    forall j | 0 <= j < |g.m.list| && j != i
      ensures g.m.list[j].client
    {
      AddrDiffers(g.m.list, i, j);
    }
  }

  lemma RemoveKeepsListOk(list: seq<Entry>, placeholder: bool, clock: nat, k: nat)
    requires ListOk(list, placeholder, clock) && k < |list|
    ensures ListOk(Remove(list, k), placeholder && list[k].client, clock)
    ensures forall i :: 0 <= i < |list| - 1 ==> Remove(list, k)[i].addr != list[k].addr
  {
    var r := Remove(list, k);
    RemovedElements(list, k);
    forall i, j | 0 <= i < j < |r|
      ensures Precedes(r[i], r[j])
    {
      assert Precedes(list[if i < k then i else i + 1], list[if j < k then j else j + 1]);
    }
    if placeholder {
      var p :| 0 <= p < |list| && !list[p].client;
      if list[k].client {
        assert !r[if p < k then p else p - 1].client;
      } else {
        AddrUnique(list, p, k);
        forall i | 0 <= i < |r|
          ensures r[i].client
        {
          AddrDiffers(list, if i < k then i else i + 1, k);
        }
      }
    }
  }

  lemma InsertKeepsListOk(list: seq<Entry>, placeholder: bool, clock: nat, e: Entry)
    requires ListOk(list, placeholder, clock) && e.stamp == clock && e.client
    requires forall i :: 0 <= i < |list| ==> list[i].addr != e.addr
    ensures ListOk(Insert(list, InsertPos(list, e.slot), e), placeholder, clock + 1)
  {
    var k := InsertPos(list, e.slot);
    hide Insert, InsertPos, Distinct, Ordered, Precedes;
    InsertedElements(list, k, e);
    InsertKeepsDistinct(list, k, e);
    InsertKeepsOrder(list, e);
    if placeholder {
      var p :| 0 <= p < |list| && !list[p].client;
      assert !Insert(list, k, e)[if p < k then p else p + 1].client;
    }
  }

  /** The list an addition starts from, the placeholder gone if the new entry takes its address. */
  lemma ReplacedIsOk(g: Manager, addr: nat)
    requires ManagerOk(g) && !Live(g, addr)
    ensures g.placeholder ==> IndexOf(g.m.list, 0) < |g.m.list|
    ensures var replace := addr == 0 && g.placeholder;
            var m := if replace then MapperDelete(g.kind, g.m, IndexOf(g.m.list, 0)) else g.m;
            && ListOk(m.list, g.placeholder && !replace, g.clock)
            && (|m.list| <= 1 || RingOk(g.kind, m.list, m.ram))
            && forall i :: 0 <= i < |m.list| ==> m.list[i].addr != addr
  {
    if g.placeholder {
      PlaceholderIndex(g);
      var k := IndexOf(g.m.list, 0);
      if addr == 0 {
        RemoveKeepsListOk(g.m.list, true, g.clock, k);
        if |g.m.list| > 1 {
          DeleteKeepsRing(g.kind, g.m, k);
        }
      }
    }
  }

  /** Adding keeps the manager's invariant and leaves a whole ring that contains the new entry. */
  lemma ImapAddKeepsOk(g: Manager, slot: nat, user: nat, addr: nat)
    requires ManagerOk(g) && !Live(g, addr)
    ensures g.placeholder ==> IndexOf(g.m.list, 0) < |g.m.list|
    ensures var g' := ImapAdd(g, slot, user, addr);
            && ManagerOk(g') && RingOk(g'.kind, g'.m.list, g'.m.ram)
            && Live(g', addr) && (g'.placeholder <==> g.placeholder && addr != 0)
  {
    hide Distinct, Ordered, FlagOk, RingOk, Insert, InsertPos, MapperDelete, IndexOf;
    ReplacedIsOk(g, addr);
    var m := if addr == 0 && g.placeholder then MapperDelete(g.kind, g.m, IndexOf(g.m.list, 0)) else g.m;
    var e := Entry(slot, user, addr, true, g.clock);
    var g' := ImapAdd(g, slot, user, addr);
    AddKeepsRing(g.kind, m, e);
    MapperAddList(g.kind, m, e);
    InsertKeepsListOk(m.list, g'.placeholder, g.clock, e);
    var k := InsertPos(m.list, slot);
    InsertedElements(m.list, k, e);
    assert g'.m.list[k] == e;
  }

  /** Deleting keeps the manager's invariant and leaves a whole, never empty ring without the entry. */
  lemma ImapDeleteKeepsOk(g: Manager, addr: nat)
    requires ManagerOk(g) && Live(g, addr)
    ensures IndexOf(g.m.list, addr) < |g.m.list|
    ensures var g' := ImapDelete(g, addr);
            && ManagerOk(g') && RingOk(g'.kind, g'.m.list, g'.m.ram)
            && !Live(g', addr)
            && (g'.placeholder <==> g.placeholder || |g.m.list| == 1)
  {
    var i :| 0 <= i < |g.m.list| && g.m.list[i].addr == addr && g.m.list[i].client;
    var k := IndexOf(g.m.list, addr);
    AddrUnique(g.m.list, i, k);
    RemoveKeepsListOk(g.m.list, g.placeholder, g.clock, k);
    var m := MapperDelete(g.kind, g.m, k);
    if |g.m.list| > 1 {
      DeleteKeepsRing(g.kind, g.m, k);
    } else {
      AddKeepsRing(g.kind, m, Placeholder(g.clock));
      var g' := ImapDelete(g, addr);
      assert g'.m.list == [Placeholder(g.clock)];
      assert !g'.m.list[0].client;
    }
  }

  lemma CreatedIsOk(kind: Kind, ram: map<nat, Cell>)
    ensures ManagerOk(Created(kind, ram))
  {
    assert !Created(kind, ram).m.list[0].client;
  }

  // ---------------------------------------------------------------- runs

  datatype Event = Add(slot: nat, user: nat, addr: nat) | Delete(addr: nat)

  /** Clients add an address only while it is not live, and delete one only while it is. */
  predicate Enabled(g: Manager, e: Event) {
    match e
    case Add(_, _, addr) => !Live(g, addr)
    case Delete(addr) => Live(g, addr)
  }

  /** The entry an operation deletes is listed. */
  predicate Defined(g: Manager, e: Event) {
    match e
    case Add(_, _, _) => g.placeholder ==> IndexOf(g.m.list, 0) < |g.m.list|
    case Delete(addr) => IndexOf(g.m.list, addr) < |g.m.list|
  }

  function Apply(g: Manager, e: Event): (g': Manager)
    requires Defined(g, e)
  {
    match e
    case Add(slot, user, addr) => ImapAdd(g, slot, user, addr)
    case Delete(addr) => ImapDelete(g, addr)
  }

  ghost predicate IsRun(gs: seq<Manager>, es: seq<Event>) {
    && |gs| == |es| + 1
    && forall i :: 0 <= i < |es| ==>
         Enabled(gs[i], es[i]) && (Defined(gs[i], es[i]) ==> gs[i + 1] == Apply(gs[i], es[i]))
  }

  /**
   * Over every run from a fresh manager, whatever the RAM held: the list is never empty, sorted by slot with
   * ties in the order of addition, and the placeholder is listed exactly when flagged; after the first
   * operation the card's ring visits exactly the listed entries, in list order, once per round.
   */
  lemma {:induction false} EveryRunKeepsRing(gs: seq<Manager>, es: seq<Event>, i: nat)
    requires IsRun(gs, es) && i < |gs| && gs[0] == Created(gs[0].kind, gs[0].m.ram)
    ensures ManagerOk(gs[i])
    ensures i > 0 ==> RingOk(gs[i].kind, gs[i].m.list, gs[i].m.ram)
  {
    if i == 0 {
      CreatedIsOk(gs[0].kind, gs[0].m.ram);
    } else {
      EveryRunKeepsRing(gs, es, i - 1);
      assert Enabled(gs[i - 1], es[i - 1]);
      match es[i - 1] {
        case Add(slot, user, addr) => ImapAddKeepsOk(gs[i - 1], slot, user, addr);
        case Delete(addr) => ImapDeleteKeepsOk(gs[i - 1], addr);
      }
      assert gs[i - 1 + 1] == Apply(gs[i - 1], es[i - 1]);
    }
  }

  // ---------------------------------------------------------------- deletion undoes addition

  function Clients(list: seq<Entry>): (cs: seq<Entry>) {
    if list == [] then [] else (if list[0].client then [list[0]] else []) + Clients(list[1..])
  }

  lemma {:induction false} ClientsAppend(xs: seq<Entry>, ys: seq<Entry>)
    ensures Clients(xs + ys) == Clients(xs) + Clients(ys)
  {
    if xs == [] {
      assert xs + ys == ys;
    } else {
      ClientsAppend(xs[1..], ys);
      assert (xs + ys)[1..] == xs[1..] + ys;
      var h := if xs[0].client then [xs[0]] else [];
      assert h + (Clients(xs[1..]) + Clients(ys)) == (h + Clients(xs[1..])) + Clients(ys);
    }
  }

  /** Deleting what was just added restores the clients' entries, their order and the ring through them. */
  lemma DeleteUndoesAdd(g: Manager, slot: nat, user: nat, addr: nat)
    requires ManagerOk(g) && !Live(g, addr) && (g.placeholder ==> IndexOf(g.m.list, 0) < |g.m.list|)
    ensures var g1 := ImapAdd(g, slot, user, addr);
            && IndexOf(g1.m.list, addr) < |g1.m.list|
            && Clients(ImapDelete(g1, addr).m.list) == Clients(g.m.list)
  {
    hide Distinct, Ordered, FlagOk, RingOk, Insert, InsertPos, IndexOf, Remove, ManagerOk, Live;
    ReplacedIsOk(g, addr);
    var replace := addr == 0 && g.placeholder;
    var m := if replace then MapperDelete(g.kind, g.m, IndexOf(g.m.list, 0)) else g.m;
    if replace {
      PlaceholderIndex(g);
      ClientsWithout(g.m.list, IndexOf(g.m.list, 0));
    }
    assert Clients(m.list) == Clients(g.m.list);
    var e := Entry(slot, user, addr, true, g.clock);
    var k := InsertPos(m.list, slot);
    var g1 := ImapAdd(g, slot, user, addr);
    MapperAddList(g.kind, m, e);
    ImapAddKeepsOk(g, slot, user, addr);
    IndexOfInserted(g1, m.list, k, e);
    RemoveUndoesInsert(m.list, k, e);
    if m.list == [] {
      assert Clients([Placeholder(g1.clock)]) == [];
    }
  }

  lemma IndexOfInserted(g: Manager, list: seq<Entry>, k: nat, e: Entry)
    requires k <= |list| && g.m.list == Insert(list, k, e) && ManagerOk(g)
    ensures IndexOf(g.m.list, e.addr) == k
  {
    hide Insert, IndexOf, Ordered, FlagOk, RingOk;
    InsertedElements(list, k, e);
    AddrUnique(g.m.list, k, IndexOf(g.m.list, e.addr));
  }

  lemma RemoveUndoesInsert(list: seq<Entry>, k: nat, e: Entry)
    requires k <= |list|
    ensures Remove(Insert(list, k, e), k) == list && |Insert(list, k, e)| == |list| + 1
  {
  }

  lemma ClientsWithout(list: seq<Entry>, k: nat)
    requires k < |list| && !list[k].client
    ensures Clients(Remove(list, k)) == Clients(list)
  {
    assert list == list[..k] + ([list[k]] + list[k + 1..]);
    ClientsAppend(list[..k], [list[k]] + list[k + 1..]);
    ClientsAppend([list[k]], list[k + 1..]);
    ClientsAppend(list[..k], list[k + 1..]);
    assert Clients([list[k]]) == [];
  }

  // ---------------------------------------------------------------- mapping a resource

  /** The clients' entries but those with an address of `addrs`. */
  function Except(list: seq<Entry>, addrs: set<nat>): (r: seq<Entry>) {
    if list == [] then []
    else (if list[0].client && list[0].addr !in addrs then [list[0]] else []) + Except(list[1..], addrs)
  }

  lemma {:induction false} ExceptAppend(xs: seq<Entry>, ys: seq<Entry>, addrs: set<nat>)
    ensures Except(xs + ys, addrs) == Except(xs, addrs) + Except(ys, addrs)
  {
    if xs == [] {
      assert xs + ys == ys;
    } else {
      ExceptAppend(xs[1..], ys, addrs);
      assert (xs + ys)[1..] == xs[1..] + ys;
      var h := if xs[0].client && xs[0].addr !in addrs then [xs[0]] else [];
      assert h + (Except(xs[1..], addrs) + Except(ys, addrs)) == (h + Except(xs[1..], addrs)) + Except(ys, addrs);
    }
  }

  lemma ExceptSplit(list: seq<Entry>, k: nat, addrs: set<nat>)
    requires k < |list|
    ensures Except(list, addrs) == Except(list[..k], addrs)
            + (if list[k].client && list[k].addr !in addrs then [list[k]] else []) + Except(list[k + 1..], addrs)
    ensures Except(Remove(list, k), addrs) == Except(list[..k], addrs) + Except(list[k + 1..], addrs)
  {
    assert list == list[..k] + ([list[k]] + list[k + 1..]);
    ExceptAppend(list[..k], [list[k]] + list[k + 1..], addrs);
    ExceptAppend([list[k]], list[k + 1..], addrs);
    ExceptAppend(list[..k], list[k + 1..], addrs);
    ExceptOne(list[k], addrs);
  }

  lemma ExceptOne(e: Entry, addrs: set<nat>)
    ensures Except([e], addrs) == if e.client && e.addr !in addrs then [e] else []
  {
    assert [e][1..] == [];
  }

  lemma ExceptInserted(list: seq<Entry>, k: nat, e: Entry, addrs: set<nat>)
    requires k <= |list| && e.addr in addrs
    ensures Except(Insert(list, k, e), addrs) == Except(list, addrs)
  {
    hide Except;
    ExceptAppend(list[..k] + [e], list[k..], addrs);
    ExceptAppend(list[..k], [e], addrs);
    ExceptOne(e, addrs);
    assert list == list[..k] + list[k..];
    ExceptAppend(list[..k], list[k..], addrs);
  }

  /** Adding an entry for one of the addresses changes nothing for the others, whatever becomes of the placeholder. */
  lemma AddLeavesOthers(g: Manager, slot: nat, user: nat, addr: nat, addrs: set<nat>)
    requires ManagerOk(g) && !Live(g, addr) && addr in addrs
    ensures (g.placeholder ==> IndexOf(g.m.list, 0) < |g.m.list|)
            && Except(ImapAdd(g, slot, user, addr).m.list, addrs) == Except(g.m.list, addrs)
  {
    hide Distinct, Ordered, FlagOk, RingOk, Insert, InsertPos, IndexOf, Remove, Live, Except;
    ReplacedIsOk(g, addr);
    var replace := addr == 0 && g.placeholder;
    var m := if replace then MapperDelete(g.kind, g.m, IndexOf(g.m.list, 0)) else g.m;
    var e := Entry(slot, user, addr, true, g.clock);
    if replace {
      PlaceholderIndex(g);
      RemovedPlaceholder(g.kind, g.m, IndexOf(g.m.list, 0), addrs);
    }
    MapperAddList(g.kind, m, e);
    ExceptInserted(m.list, InsertPos(m.list, slot), e, addrs);
  }

  lemma RemovedPlaceholder(kind: Kind, m: Mapper, k: nat, addrs: set<nat>)
    requires k < |m.list| && (!m.list[k].client || m.list[k].addr in addrs)
    ensures Except(MapperDelete(kind, m, k).list, addrs) == Except(m.list, addrs)
  {
    ExceptSplit(m.list, k, addrs);
    assert |m.list| == 1 ==> Remove(m.list, k) == [];
  }

  lemma DeleteLeavesOthers(g: Manager, addr: nat, addrs: set<nat>)
    requires ManagerOk(g) && Live(g, addr) && addr in addrs
    ensures IndexOf(g.m.list, addr) < |g.m.list| && Except(ImapDelete(g, addr).m.list, addrs) == Except(g.m.list, addrs)
  {
    var k := IndexOf(g.m.list, addr);
    ImapDeleteKeepsOk(g, addr);
    RemovedPlaceholder(g.kind, g.m, k, addrs);
    ExceptOne(Placeholder(g.clock), addrs);
    var m := MapperDelete(g.kind, g.m, k);
    if m.list == [] {
      assert Insert([], 0, Placeholder(g.clock)) == [Placeholder(g.clock)];
    }
  }

  lemma {:induction false} ListedIffExcept(list: seq<Entry>, addrs: set<nat>, a: nat)
    requires a !in addrs
    ensures (exists i :: 0 <= i < |list| && list[i].addr == a && list[i].client)
       <==> exists i :: 0 <= i < |Except(list, addrs)| && Except(list, addrs)[i].addr == a
  {
    if list != [] {
      ListedIffExcept(list[1..], addrs, a);
      var r, rest := Except(list, addrs), Except(list[1..], addrs);
      if i :| 0 <= i < |list| && list[i].addr == a && list[i].client {
        if i == 0 {
          assert r[0].addr == a;
        } else {
          assert list[1..][i - 1].addr == a;
          var j :| 0 <= j < |rest| && rest[j].addr == a;
          assert r[|r| - |rest| + j].addr == a;
        }
      }
      if i :| 0 <= i < |r| && r[i].addr == a {
        if i < |r| - |rest| {
          assert list[0].addr == a;
        } else {
          assert rest[i - (|r| - |rest|)].addr == a;
          var j :| 0 <= j < |list[1..]| && list[1..][j].addr == a && list[1..][j].client;
          assert list[j + 1].addr == a;
        }
      }
    }
  }

  /** An operation on one address leaves every other as live as it was. */
  lemma OthersStayLive(g: Manager, g': Manager, addr: nat, a: nat)
    requires Except(g'.m.list, {addr}) == Except(g.m.list, {addr}) && a != addr
    ensures Live(g', a) <==> Live(g, a)
  {
    hide Except;
    ListedIffExcept(g.m.list, {addr}, a);
    ListedIffExcept(g'.m.list, {addr}, a);
  }

  lemma {:induction false} ExceptFewer(list: seq<Entry>, addrs: set<nat>)
    requires forall i :: 0 <= i < |list| && list[i].client ==> list[i].addr !in addrs
    ensures Except(list, addrs) == Clients(list)
  {
    if list != [] {
      assert forall i :: 0 <= i < |list[1..]| ==> list[1..][i] == list[i + 1];
      ExceptFewer(list[1..], addrs);
    }
  }

  /** One entry of a resource: the input's slot, the resource that listens, and the entry's address. */
  datatype Mapping = Mapping(slot: nat, user: nat, addr: nat)

  function Addrs(ms: seq<Mapping>): (s: set<nat>) { if ms == [] then {} else {ms[0].addr} + Addrs(ms[1..]) }

  predicate Fresh(g: Manager, ms: seq<Mapping>) {
    && (forall i :: 0 <= i < |ms| ==> !Live(g, ms[i].addr))
    && forall i, j :: 0 <= i < j < |ms| ==> ms[i].addr != ms[j].addr
  }

  predicate Listed(g: Manager, ms: seq<Mapping>) {
    && (forall i :: 0 <= i < |ms| ==> Live(g, ms[i].addr))
    && forall i, j :: 0 <= i < j < |ms| ==> ms[i].addr != ms[j].addr
  }

  lemma AddKeepsRest(g: Manager, ms: seq<Mapping>)
    requires ManagerOk(g) && Fresh(g, ms) && ms != []
    ensures Defined(g, Add(ms[0].slot, ms[0].user, ms[0].addr))
    ensures var g' := ImapAdd(g, ms[0].slot, ms[0].user, ms[0].addr);
            && ManagerOk(g') && Fresh(g', ms[1..]) && Live(g', ms[0].addr)
            && forall a :: a != ms[0].addr ==> (Live(g', a) <==> Live(g, a))
  {
    var m := ms[0];
    hide ManagerOk, Live, Except, IndexOf;
    ImapAddKeepsOk(g, m.slot, m.user, m.addr);
    AddLeavesOthers(g, m.slot, m.user, m.addr, {m.addr});
    forall a | a != m.addr
      ensures Live(ImapAdd(g, m.slot, m.user, m.addr), a) <==> Live(g, a)
    {
      OthersStayLive(g, ImapAdd(g, m.slot, m.user, m.addr), m.addr, a);
    }
  }

  lemma DeleteKeepsRest(g: Manager, ms: seq<Mapping>)
    requires ManagerOk(g) && Listed(g, ms) && ms != []
    ensures Defined(g, Delete(ms[0].addr))
    ensures var g' := ImapDelete(g, ms[0].addr);
            && ManagerOk(g') && Listed(g', ms[1..]) && !Live(g', ms[0].addr)
            && forall a :: a != ms[0].addr ==> (Live(g', a) <==> Live(g, a))
  {
    var addr := ms[0].addr;
    hide ManagerOk, Live, Except, IndexOf;
    ImapDeleteKeepsOk(g, addr);
    DeleteLeavesOthers(g, addr, {addr});
    forall a | a != addr
      ensures Live(ImapDelete(g, addr), a) <==> Live(g, a)
    {
      OthersStayLive(g, ImapDelete(g, addr), addr, a);
    }
  }

  /** Mapping a resource lists all its entries. */
  function MapAll(g: Manager, ms: seq<Mapping>): (g': Manager)
    requires ManagerOk(g) && Fresh(g, ms)
    ensures ManagerOk(g') && Listed(g', ms)
    ensures forall a :: a !in Addrs(ms) ==> (Live(g', a) <==> Live(g, a))
    decreases |ms|
  {
    if ms == [] then g
    else
      AddKeepsRest(g, ms);
      AddressIsFirstOnly(ms);
      MapAll(ImapAdd(g, ms[0].slot, ms[0].user, ms[0].addr), ms[1..])
  }

  /** Unmapping it deletes them, in the order they were mapped. */
  function UnmapAll(g: Manager, ms: seq<Mapping>): (g': Manager)
    requires ManagerOk(g) && Listed(g, ms)
    ensures ManagerOk(g') && Fresh(g', ms)
    ensures forall a :: a !in Addrs(ms) ==> (Live(g', a) <==> Live(g, a))
    decreases |ms|
  {
    if ms == [] then g
    else
      DeleteKeepsRest(g, ms);
      AddressIsFirstOnly(ms);
      UnmapAll(ImapDelete(g, ms[0].addr), ms[1..])
  }

  lemma {:induction false} AddrsMember(ms: seq<Mapping>, a: nat)
    ensures a in Addrs(ms) <==> exists i :: 0 <= i < |ms| && ms[i].addr == a
  {
    if ms != [] {
      AddrsMember(ms[1..], a);
      if i :| 0 <= i < |ms| && ms[i].addr == a {
        assert i > 0 ==> ms[1..][i - 1].addr == a;
      }
      if i :| 0 <= i < |ms[1..]| && ms[1..][i].addr == a {
        assert ms[i + 1].addr == a;
      }
    }
  }

  lemma AddressIsFirstOnly(ms: seq<Mapping>)
    requires ms != [] && forall i, j :: 0 <= i < j < |ms| ==> ms[i].addr != ms[j].addr
    ensures ms[0].addr !in Addrs(ms[1..])
  {
    AddrsMember(ms[1..], ms[0].addr);
  }

  lemma {:induction false} MapLeavesOthers(g: Manager, ms: seq<Mapping>, addrs: set<nat>)
    requires ManagerOk(g) && Fresh(g, ms) && Addrs(ms) <= addrs
    ensures Except(MapAll(g, ms).m.list, addrs) == Except(g.m.list, addrs)
    decreases |ms|
  {
    hide ManagerOk, Live, Except, IndexOf;
    if ms != [] {
      AddKeepsRest(g, ms);
      AddLeavesOthers(g, ms[0].slot, ms[0].user, ms[0].addr, addrs);
      MapLeavesOthers(ImapAdd(g, ms[0].slot, ms[0].user, ms[0].addr), ms[1..], addrs);
    }
  }

  lemma {:induction false} UnmapLeavesOthers(g: Manager, ms: seq<Mapping>, addrs: set<nat>)
    requires ManagerOk(g) && Listed(g, ms) && Addrs(ms) <= addrs
    ensures Except(UnmapAll(g, ms).m.list, addrs) == Except(g.m.list, addrs)
    decreases |ms|
  {
    hide ManagerOk, Live, Except, IndexOf;
    if ms != [] {
      DeleteKeepsRest(g, ms);
      DeleteLeavesOthers(g, ms[0].addr, addrs);
      UnmapLeavesOthers(ImapDelete(g, ms[0].addr), ms[1..], addrs);
    }
  }

  lemma FreshIsExcept(g: Manager, ms: seq<Mapping>)
    requires Fresh(g, ms)
    ensures Except(g.m.list, Addrs(ms)) == Clients(g.m.list)
  {
    forall i | 0 <= i < |g.m.list| && g.m.list[i].client
      ensures g.m.list[i].addr !in Addrs(ms)
    {
      AddrsMember(ms, g.m.list[i].addr);
      assert Live(g, g.m.list[i].addr);
    }
    ExceptFewer(g.m.list, Addrs(ms));
  }

  /**
   * Unmapping a resource restores the clients' list as it was before the resource was mapped, entry by
   * entry and in order, although its entries are deleted first to last.
   */
  lemma UnmapUndoesMap(g: Manager, ms: seq<Mapping>)
    requires ManagerOk(g) && Fresh(g, ms)
    ensures Clients(UnmapAll(MapAll(g, ms), ms).m.list) == Clients(g.m.list)
  {
    hide ManagerOk, Except, Clients, Fresh, Listed;
    MapLeavesOthers(g, ms, Addrs(ms));
    UnmapLeavesOthers(MapAll(g, ms), ms, Addrs(ms));
    FreshIsExcept(g, ms);
    FreshIsExcept(UnmapAll(MapAll(g, ms), ms), ms);
  }

  // ---------------------------------------------------------------- the driver's linked list

  /** An entry of the driver, linked into the circular list; a list's head is a node whose fields are unused. */
  class Node {
    var slot: nat
    var user: nat
    var addr: nat
    var nxt: nat
    var prev: Node
    var next: Node

    constructor Head()
      ensures prev == this && next == this && slot == user == addr == 0
    {
      slot, user, addr, nxt := 0, 0, 0, 0;
      prev, next := this, this;
    }

    ghost predicate Holds(e: Entry)
      reads this`slot, this`user, this`addr
    {
      slot == e.slot && user == e.user && addr == e.addr
    }
  }

  /** The links along a chain of nodes that starts and ends at the head. */
  ghost predicate Linked(chain: seq<Node>)
    reads chain`next, chain`prev
  {
    forall i, j :: 0 <= i && j == i + 1 && j < |chain| ==> chain[i].next == chain[j] && chain[j].prev == chain[i]
  }

  ghost predicate ChainOk(chain: seq<Node>) {
    && |chain| >= 2 && chain[0] == chain[|chain| - 1]
    && forall i, j :: 0 <= i < j < |chain| - 1 ==> chain[i] != chain[j]
  }

  /** Links `e` in between two neighbours. */
  method ListInsert(ghost chain: seq<Node>, ghost k: nat, e: Node, before: Node, behind: Node)
    requires ChainOk(chain) && Linked(chain) && k + 1 < |chain| && e !in chain
    requires before == chain[k] && behind == chain[k + 1]
    modifies before`next, behind`prev, e`next, e`prev
    ensures ChainOk(chain[..k + 1] + [e] + chain[k + 1..]) && Linked(chain[..k + 1] + [e] + chain[k + 1..])
  {
    behind.prev := e;
    e.next := behind;
    e.prev := before;
    before.next := e;
  }

  /** Unlinks the node at position `k`. */
  method ListDelete(ghost chain: seq<Node>, ghost k: nat, e: Node)
    requires ChainOk(chain) && Linked(chain) && 0 < k < |chain| - 1 && e == chain[k]
    modifies e.prev`next, e.next`prev
    ensures ChainOk(chain[..k] + chain[k + 1..]) && Linked(chain[..k] + chain[k + 1..])
  {
    assert chain[k - 1].next == chain[k] && chain[k].next == chain[k + 1];
    e.next.prev := e.prev;
    e.prev.next := e.next;
  }

  /** A slot not above `e`'s at every position passed and a larger one here: the insertion position. */
  lemma {:induction false} InsertPosIs(list: seq<Entry>, slot: nat, k: nat)
    requires k <= |list| && (forall i :: 0 <= i < k ==> list[i].slot <= slot)
    requires k < |list| ==> list[k].slot > slot
    ensures InsertPos(list, slot) == k
  {
  }

  /** A mapper: the circular list hanging off `head` and the card's RAM. */
  class MapperList {
    const kind: Kind
    const head: Node
    var ram: map<nat, Cell>
    ghost var nodes: seq<Node>
    ghost var items: seq<Entry>

    ghost predicate Valid()
      reads this`nodes, this`items, head`next, head`prev
      reads nodes`next, nodes`prev, nodes`slot, nodes`user, nodes`addr
    {
      && ChainOk([head] + nodes + [head]) && Linked([head] + nodes + [head])
      && |nodes| == |items| && forall i :: 0 <= i < |nodes| ==> nodes[i].Holds(items[i])
    }

    ghost function Abs(): (m: Mapper)
      reads this
    {
      Mapper(items, ram)
    }

    constructor (kind: Kind, ram: map<nat, Cell>)
      ensures Valid() && fresh(head) && nodes == [] && items == [] && this.ram == ram && this.kind == kind
    {
      this.kind, this.ram := kind, ram;
      head := new Node.Head();
      nodes, items := [], [];
    }

    /** Writes an entry's record. */
    method WriteCell(e: Node)
      modifies this`ram
      ensures ram == MapOp(kind, old(ram), e.slot, e.user, e.addr, e.nxt)
    {
      var user := if kind.SrcImp? then e.user else if e.addr in ram then ram[e.addr].user else 0;
      ram := ram[e.addr := Cell(e.slot, user, e.nxt)];
    }

    /** The first node whose slot is larger, or the head. */
    method FindPos(slot: nat) returns (pos: Node)
      requires Valid()
      ensures var k := InsertPos(items, slot);
              pos == ([head] + nodes + [head])[k + 1]
    {
      ghost var chain := [head] + nodes + [head];
      ghost var k := 0;
      pos := head.next;
      assert chain[0].next == chain[1];
      while pos != head
        invariant k <= |nodes| && pos == chain[k + 1]
        invariant forall i :: 0 <= i < k ==> items[i].slot <= slot
        decreases |nodes| - k
      {
        assert pos == nodes[k];
        if pos.slot > slot { break; }
        assert chain[k + 1].next == chain[k + 2];
        pos := pos.next;
        k := k + 1;
      }
      InsertPosIs(items, slot, k);
    }

    /** The nodes around position `k`, found through the links. */
    lemma Neighbours(k: nat)
      requires Valid() && nodes != [] && k <= |nodes|
      ensures var chain := [head] + nodes + [head];
              chain[k].next == chain[k + 1] && chain[k + 1].prev == chain[k]
      ensures head.next == nodes[0] && head.prev == nodes[|nodes| - 1] && head !in nodes
    {
      var chain := [head] + nodes + [head];
      assert chain[0].next == chain[1];
      assert chain[|nodes|].next == chain[|nodes| + 1];
      forall i | 0 <= i < |nodes|
        ensures nodes[i] != head
      {
        assert chain[i + 1] != chain[0];
      }
    }

    /** Points `e` at `pos` and `pre` at `e`, in the driver's entries and in RAM. */
    method Patch(e: Node, pre: Node, pos: Node)
      requires e != pre
      modifies this`ram, e`nxt, pre`nxt
      ensures ram == MapOp(kind, MapOp(kind, old(ram), e.slot, e.user, e.addr, pos.addr),
                           pre.slot, pre.user, pre.addr, e.addr)
    {
      e.nxt := pos.addr;
      WriteCell(e);
      pre.nxt := e.addr;
      WriteCell(pre);
    }

    /** What linking in `e` at position `k` does to the ghost lists. */
    ghost method Inserted(e: Node, it: Entry, k: nat)
      requires k <= |nodes| == |items| && e.Holds(it)
      requires ChainOk([head] + nodes[..k] + [e] + nodes[k..] + [head])
      requires Linked([head] + nodes[..k] + [e] + nodes[k..] + [head])
      requires forall i :: 0 <= i < |nodes| ==> nodes[i].Holds(items[i])
      modifies this`nodes, this`items
      ensures Valid() && items == Insert(old(items), k, it) && nodes == old(nodes)[..k] + [e] + old(nodes)[k..]
    {
      nodes := nodes[..k] + [e] + nodes[k..];
      items := Insert(items, k, it);
      assert [head] + nodes + [head] == [head] + old(nodes)[..k] + [e] + old(nodes)[k..] + [head];
    }

    /** Where an entry of a slot goes: the nodes to link it between, and its cyclic neighbours among the entries. */
    method FindPlace(slot: nat) returns (before: Node, behind: Node, pre: Node, pos: Node)
      requires Valid() && nodes != []
      ensures var k, n, chain := InsertPos(items, slot), |nodes|, [head] + nodes + [head];
              && before == chain[k] && behind == chain[k + 1]
              && pre == nodes[Before(k, n)] && pos == nodes[if k < n then k else 0]
    {
      hide Linked, ChainOk, InsertPos, Insert;
      Neighbours(InsertPos(items, slot));
      pos := FindPos(slot);
      before, behind, pre := pos.prev, pos, pos.prev;
      assert pos != head <==> InsertPos(items, slot) < |nodes|;
      if pos != head {
        if pre == head {
          pre := head.prev;
        }
      } else {
        pos := head.next;
      }
    }

    /** Links `e` in before the first entry with a larger slot, and returns its cyclic neighbours. */
    method Link(e: Node, ghost it: Entry) returns (pre: Node, pos: Node)
      requires Valid() && e != head && e !in nodes && e.Holds(it) && nodes != []
      modifies this`nodes, this`items, head`next, head`prev, nodes`next, nodes`prev, e`next, e`prev
      ensures var k, n := InsertPos(old(items), it.slot), |old(items)|;
              && Valid() && items == Insert(old(items), k, it) && nodes == old(nodes)[..k] + [e] + old(nodes)[k..]
              && n == |old(nodes)| && pre == old(nodes)[Before(k, n)] && pos == old(nodes)[if k < n then k else 0]
    {
      hide Linked, ChainOk, InsertPos, Insert;
      ghost var k := InsertPos(items, it.slot);
      ghost var chain := [head] + nodes + [head];
      var before, behind;
      before, behind, pre, pos := FindPlace(e.slot);
      ListInsert(chain, k, e, before, behind);
      assert chain[..k + 1] + [e] + chain[k + 1..] == [head] + nodes[..k] + [e] + nodes[k..] + [head];
      Inserted(e, it, k);
    }

    /** Links the first entry into an empty list. */
    method InsertFirst(e: Node, ghost it: Entry)
      requires Valid() && nodes == [] && e != head && e.Holds(it)
      modifies this`nodes, this`items, head`next, head`prev, e`next, e`prev
      ensures Valid() && nodes == [e] && items == [it]
    {
      ghost var chain := [head] + nodes + [head];
      EmptyHead();
      ListInsert(chain, 0, e, head, head.next);
      assert chain[..1] + [e] + chain[1..] == [head] + nodes[..0] + [e] + nodes[0..] + [head];
      Inserted(e, it, 0);
    }

    /** Adds an entry, patching the RAM records of the entry and of its predecessor. */
    method Add(e: Node, ghost it: Entry)
      requires Valid() && e != head && e !in nodes && e.Holds(it)
      modifies this, head`next, head`prev, nodes`next, nodes`prev, nodes`nxt, e`next, e`prev, e`nxt
      ensures Valid() && Abs() == MapperAdd(kind, old(Abs()), it) && e.Holds(it)
      ensures var k := InsertPos(old(items), it.slot);
              nodes == old(nodes)[..k] + [e] + old(nodes)[k..]
    {
      hide ChainOk, Linked;
      if nodes != [] {
        Neighbours(0);
      } else {
        EmptyHead();
      }
      if head.next == head {
        e.nxt := e.addr;
        WriteCell(e);
        InsertFirst(e, it);
      } else {
        var pre, pos := Link(e, it);
        Patch(e, pre, pos);
      }
    }

    /** What unlinking the node at position `k` does to the ghost lists. */
    ghost method Removed(k: nat)
      requires k < |nodes| == |items|
      requires ChainOk([head] + nodes[..k] + nodes[k + 1..] + [head])
      requires Linked([head] + nodes[..k] + nodes[k + 1..] + [head])
      requires forall i :: 0 <= i < |nodes| && i != k ==> nodes[i].Holds(items[i])
      modifies this`nodes, this`items
      ensures Valid() && items == Remove(old(items), k) && nodes == old(nodes)[..k] + old(nodes)[k + 1..]
    {
      nodes := nodes[..k] + nodes[k + 1..];
      items := Remove(items, k);
      assert [head] + nodes + [head] == [head] + old(nodes)[..k] + old(nodes)[k + 1..] + [head];
    }

    /** The cyclic neighbours of a listed node among the entries. */
    method Around(e: Node, ghost k: nat) returns (pre: Node, next: Node)
      requires Valid() && k < |nodes| && e == nodes[k]
      ensures pre == nodes[Before(k, |nodes|)] && next == nodes[After(k, |nodes|)]
      ensures e.prev == ([head] + nodes + [head])[k] && e.next == ([head] + nodes + [head])[k + 2]
    {
      hide ChainOk, Linked;
      Neighbours(k);
      Neighbours(k + 1);
      pre, next := e.prev, e.next;
      if pre == head {
        pre := head.prev;
      }
      if next == head {
        next := head.next;
      }
    }

    lemma NodesDistinct(i: nat, j: nat)
      requires Valid() && i < |nodes| && j < |nodes| && i != j
      ensures nodes[i] != nodes[j]
    {
      var chain := [head] + nodes + [head];
      assert chain[i + 1] != chain[j + 1];
    }

    lemma NodesDistinctFrom(k: nat)
      requires Valid() && k < |nodes|
      ensures nodes[k] !in nodes[..k] + nodes[k + 1..]
    {
      forall i | 0 <= i < |nodes| && i != k
        ensures nodes[i] != nodes[k]
      {
        NodesDistinct(i, k);
      }
    }

    lemma EmptyHead()
      requires Valid() && nodes == []
      ensures head.next == head
    {
      var chain := [head] + nodes + [head];
      assert chain[0].next == chain[1];
    }

    method Unlink(e: Node, ghost k: nat)
      requires k < |nodes| && e == nodes[k] && |nodes| == |items|
      requires ChainOk([head] + nodes + [head]) && Linked([head] + nodes + [head])
      requires forall i :: 0 <= i < |nodes| && i != k ==> nodes[i].Holds(items[i])
      modifies this`nodes, this`items, head`next, head`prev, nodes`next, nodes`prev
      ensures Valid() && items == Remove(old(items), k) && nodes == old(nodes)[..k] + old(nodes)[k + 1..]
    {
      ghost var chain := [head] + nodes + [head];
      assert chain[k].next == chain[k + 1] && chain[k + 1].next == chain[k + 2];
      assert chain[k + 2].prev == chain[k + 1] && chain[k + 1].prev == chain[k];
      hide ChainOk, Linked;
      ListDelete(chain, k + 1, e);
      assert chain[..k + 1] + chain[k + 2..] == [head] + nodes[..k] + nodes[k + 1..] + [head];
      Removed(k);
    }

    /**
     * Deletes a listed entry: its predecessor is pointed past it, in RAM as well. The only entry left is
     * cleared instead, and record 0 written.
     */
    method Delete(e: Node, ghost k: nat)
      requires Valid() && k < |nodes| && e == nodes[k]
      modifies this, head`next, head`prev, nodes`next, nodes`prev, nodes`nxt, e
      ensures Valid() && Abs() == MapperDelete(kind, old(Abs()), k)
      ensures nodes == old(nodes)[..k] + old(nodes)[k + 1..]
      ensures e.Holds(if |old(nodes)| == 1 then Placeholder(0) else old(items)[k])
    {
      hide ChainOk, Linked;
      var pre, next := Around(e, k);
      forall i | 0 <= i < |nodes| && i != k
        ensures nodes[i] != e
      {
        NodesDistinct(i, k);
      }
      assert pre == e <==> |nodes| == 1;
      if pre == e {
        e.nxt, e.addr, e.user, e.slot := 0, 0, 0, 0;
        WriteCell(e);
        Unlink(e, k);
      } else {
        pre.nxt := next.addr;
        WriteCell(pre);
        Unlink(e, k);
      }
    }
  }

  lemma ImapDeleteIs(g: Manager, k: nat, addr: nat)
    requires k < |g.m.list| && IndexOf(g.m.list, addr) == k
    ensures var m := MapperDelete(g.kind, g.m, k);
            ImapDelete(g, addr)
            == if m.list == []
               then Manager(g.kind, MapperAdd(g.kind, m, Placeholder(g.clock)), true, g.clock + 1)
                                   else Manager(g.kind, m, g.placeholder, g.clock)
  {
  }

  ghost predicate Carries(x: Node, nodes: seq<Node>, items: seq<Entry>) {
    |nodes| == |items| && forall i :: 0 <= i < |nodes| ==> (nodes[i] == x <==> !items[i].client)
  }

  lemma CarriesRemoved(x: Node, nodes: seq<Node>, items: seq<Entry>, k: nat)
    requires Carries(x, nodes, items) && k < |nodes|
    ensures Carries(x, nodes[..k] + nodes[k + 1..], Remove(items, k))
    ensures nodes[k] == x <==> !items[k].client
  {
  }

  lemma CarriesInserted(x: Node, nodes: seq<Node>, items: seq<Entry>, k: nat, e: Node, it: Entry)
    requires Carries(x, nodes, items) && k <= |nodes| && (e == x <==> !it.client)
    ensures Carries(x, nodes[..k] + [e] + nodes[k..], Insert(items, k, it))
  {
  }

  /** The resource manager around a mapper list, with its placeholder entry `initImap`. */
  class ImapManager {
    const list: MapperList
    const initImap: Node
    var initAdded: bool
    ghost var clock: nat

    ghost function Abs(): (g: Manager)
      reads this, list
    {
      Manager(list.kind, list.Abs(), initAdded, clock)
    }

    /** The placeholder node is a zero entry and carries exactly the listed entry that is not a client's. */
    ghost predicate Owned()
      reads this, list`nodes, list`items, initImap`slot, initImap`user, initImap`addr
    {
      initImap != list.head && initImap.Holds(Placeholder(0)) && Carries(initImap, list.nodes, list.items)
    }

    ghost predicate Valid()
      reads this, list, list.head, list.nodes, initImap
    {
      list.Valid() && Owned() && ManagerOk(Abs())
    }

    constructor (kind: Kind, ram: map<nat, Cell>)
      ensures Valid() && Abs() == Created(kind, ram)
    {
      list := new MapperList(kind, ram);
      initImap := new Node.Head();
      initAdded, clock := true, 1;
      new;
      list.InsertFirst(initImap, Placeholder(0));
      CreatedIsOk(kind, ram);
    }

    /** Unlists the placeholder if an entry for address `addr` is to take its place. */
    method MakeRoom(addr: nat)
      requires list.Valid() && Owned() && ManagerOk(Abs())
      modifies this`initAdded, list, list.head`next, list.head`prev, list.nodes`next, list.nodes`prev, list.nodes`nxt,
               initImap
      ensures initAdded == (old(initAdded) && addr != 0) && list.Valid() && Owned()
      ensures old(initAdded) ==> IndexOf(old(list.items), 0) < |old(list.items)|
      ensures list.Abs() == if addr == 0 && old(initAdded)
                            then MapperDelete(list.kind, old(list.Abs()), IndexOf(old(list.items), 0))
                            else old(list.Abs())
      ensures list.nodes == if addr == 0 && old(initAdded)
                            then var k := IndexOf(old(list.items), 0); old(list.nodes)[..k] + old(list.nodes)[k + 1..]
                            else old(list.nodes)
    {
      hide ListOk, RingOk, IndexOf, Linked, ChainOk;
      if initAdded {
        PlaceholderIndex(Abs());
      }
      if addr == 0 && initAdded {
        ghost var k := IndexOf(list.items, 0);
        CarriesRemoved(initImap, list.nodes, list.items, k);
        list.Delete(initImap, k);
        initAdded := false;
      }
    }

    /** Adds a client's entry; one for RAM address 0 first takes the placeholder's place. */
    method Add(e: Node)
      requires Valid() && !Live(Abs(), e.addr) && e != list.head && e !in list.nodes && e != initImap
      modifies this, list, list.head, list.nodes, initImap, e
      ensures old(Abs()).placeholder ==> IndexOf(old(Abs()).m.list, 0) < |old(Abs()).m.list|
      ensures Valid() && Abs() == ImapAdd(old(Abs()), old(e.slot), old(e.user), old(e.addr))
      ensures e in list.nodes
    {
      hide ManagerOk, IndexOf, Linked, ChainOk, Live, InsertPos, Insert, MapperAdd, MapperDelete;
      ImapAddKeepsOk(Abs(), e.slot, e.user, e.addr);
      MakeRoom(e.addr);
      CarriesInserted(initImap, list.nodes, list.items, InsertPos(list.items, e.slot), e,
          Entry(e.slot, e.user, e.addr, true, clock));
      MapperAddList(list.kind, list.Abs(), Entry(e.slot, e.user, e.addr, true, clock));
      list.Add(e, Entry(e.slot, e.user, e.addr, true, clock));
      clock := clock + 1;
    }

    /** Lists the placeholder if nothing else is listed. */
    method Relist()
      requires list.Valid() && Owned()
      modifies this, list, list.head`next, list.head`prev, initImap`next, initImap`prev, initImap`nxt
      ensures initAdded == (old(initAdded) || old(list.items) == []) && list.Valid() && Owned()
      ensures clock == old(clock) + if old(list.items) == [] then 1 else 0
      ensures list.Abs() == if old(list.items) == [] then MapperAdd(list.kind, old(list.Abs()), Placeholder(old(clock)))
                            else old(list.Abs())
      ensures list.nodes == if old(list.items) == [] then [initImap] else old(list.nodes)
    {
      hide ChainOk, Linked;
      if list.nodes != [] {
        list.Neighbours(0);
      } else {
        list.EmptyHead();
      }
      if list.head.next == list.head {
        CarriesInserted(initImap, list.nodes, list.items, 0, initImap, Placeholder(clock));
        list.Add(initImap, Placeholder(clock));
        initAdded := true;
        clock := clock + 1;
      }
    }

    method Unlist(e: Node, ghost k: nat)
      requires list.Valid() && Owned() && k < |list.nodes| && list.nodes[k] == e && e != initImap
      modifies list, list.head`next, list.head`prev, list.nodes`next, list.nodes`prev, list.nodes`nxt, e
      ensures list.Valid() && Owned() && list.Abs() == MapperDelete(list.kind, old(list.Abs()), k)
      ensures list.nodes == old(list.nodes)[..k] + old(list.nodes)[k + 1..] && e !in list.nodes
    {
      CarriesRemoved(initImap, list.nodes, list.items, k);
      list.NodesDistinctFrom(k);
      list.Delete(e, k);
    }

    /** Deletes a client's entry; when it was the last one the placeholder is listed again. */
    method Delete(e: Node, ghost k: nat)
      requires Valid() && k < |list.nodes| && list.nodes[k] == e && e != initImap
      modifies this, list, list.head, list.nodes, initImap
      ensures IndexOf(old(list.items), old(e.addr)) < |old(list.items)|
      ensures Valid() && Abs() == ImapDelete(old(Abs()), old(e.addr))
      ensures e !in list.nodes
    {
      ClientIndex(Abs(), k, e.addr);
      hide ManagerOk, IndexOf, Linked, ChainOk, Live, MapperAdd, MapperDelete, Remove, Carries, ImapDelete, RingOk;
      ImapDeleteKeepsOk(Abs(), e.addr);
      ImapDeleteIs(Abs(), k, e.addr);
      Unlist(e, k);
      Relist();
    }
  }
}
