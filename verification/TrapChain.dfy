/**
 * The chains of port traps. Each installation appends a table of ports and handlers; a trapped access goes
 * to the first table that lists its port. Under QEMM an installation also notes which of its ports were
 * trapped already, and removing it clears the trap of the others.
 */
module TrapChain {

  /** A table's line: the port, whether it was trapped already when the table was installed, and the handler. */
  datatype Entry = Entry(port: nat, before: bool, handler: nat)

  type Table = seq<Entry>

  datatype Option<T> = None | Some(value: T)

  // ---------------------------------------------------------------- dispatch

  function InTable(t: Table, port: nat): (h: Option<nat>) {
    if t == [] then None else if t[0].port == port then Some(t[0].handler) else InTable(t[1..], port)
  }

  /** The handler a trapped access is given to. */
  function Dispatch(links: seq<Table>, port: nat): (h: Option<nat>) {
    if links == [] then None
    else if InTable(links[0], port).Some? then InTable(links[0], port)
    else Dispatch(links[1..], port)
  }

  predicate Lists(t: Table, port: nat) { exists a :: 0 <= a < |t| && t[a].port == port }

  lemma {:induction false} InTableIffListed(t: Table, port: nat)
    ensures InTable(t, port).Some? <==> Lists(t, port)
  {
    if t != [] {
      InTableIffListed(t[1..], port);
      if InTable(t, port).Some? {
        if t[0].port != port {
          var a :| 0 <= a < |t[1..]| && t[1..][a].port == port;
          assert t[a + 1].port == port;
        }
      } else if a :| 0 <= a < |t| && t[a].port == port {
        assert t[1..][a - 1].port == port;
      }
    }
  }

  /** The earliest installed table that lists the port decides, and a port no table lists is not handled. */
  lemma {:induction false} DispatchIsEarliest(links: seq<Table>, port: nat, k: nat)
    requires k < |links| && Lists(links[k], port) && forall i :: 0 <= i < k ==> !Lists(links[i], port)
    ensures Dispatch(links, port) == InTable(links[k], port) && InTable(links[k], port).Some?
  {
    InTableIffListed(links[0], port);
    if k > 0 {
      assert links[1..][k - 1] == links[k];
      DispatchIsEarliest(links[1..], port, k - 1);
    }
  }

  lemma {:induction false} UnlistedIsNotDispatched(links: seq<Table>, port: nat)
    ensures Dispatch(links, port) == None <==> forall i :: 0 <= i < |links| ==> !Lists(links[i], port)
  {
    if links != [] {
      InTableIffListed(links[0], port);
      UnlistedIsNotDispatched(links[1..], port);
      if Dispatch(links, port) == None {
        forall i | 0 <= i < |links|
          ensures !Lists(links[i], port)
        {
          if i > 0 {
            assert links[i] == links[1..][i - 1];
          }
        }
      } else if Dispatch(links[1..], port) != None {
        var i :| 0 <= i < |links[1..]| && Lists(links[1..][i], port);
        assert Lists(links[i + 1], port);
      }
    }
  }

  // ---------------------------------------------------------------- trapped ports

  function Ports(t: Table): (s: set<nat>) { set e | e in t :: e.port }

  /** The ports an uninstallation clears: those recorded as not trapped before. */
  function Cleared(t: Table): (s: set<nat>) { set e | e in t && !e.before :: e.port }

  function AllPorts(links: seq<Table>): (s: set<nat>) {
    if links == [] then {} else AllPorts(links[..|links| - 1]) + Ports(links[|links| - 1])
  }

  /** The table as recorded: every port is looked up, and then trapped, in turn. */
  function Recorded(trapped: set<nat>, t: Table): (r: Table) {
    if t == [] then []
    else
      var r, e := Recorded(trapped, t[..|t| - 1]), t[|t| - 1];
      r + [Entry(e.port, e.port in trapped + Ports(t[..|t| - 1]), e.handler)]
  }

  datatype Traps = Traps(trapped: set<nat>, links: seq<Table>)

  function Install(s: Traps, t: Table): (s': Traps) { Traps(s.trapped + Ports(t), s.links + [Recorded(s.trapped, t)]) }

  function Uninstall(s: Traps, k: nat): (s': Traps)
    requires k < |s.links|
  {
    Traps(s.trapped - Cleared(s.links[k]), s.links[..k] + s.links[k + 1..])
  }

  /** Exactly the ports trapped originally and those of live tables are trapped. */
  predicate Right(s: Traps, base: set<nat>) { s.trapped == base + AllPorts(s.links) }

  /** Every table would clear what it was the first to trap. */
  predicate FirstOwners(links: seq<Table>, base: set<nat>) {
    forall i :: 0 <= i < |links| ==> Cleared(links[i]) == Ports(links[i]) - (base + AllPorts(links[..i]))
  }

  predicate TrapsOk(s: Traps, base: set<nat>) { Right(s, base) && FirstOwners(s.links, base) }

  lemma PortsAppend(a: Table, e: Entry)
    ensures Ports(a + [e]) == Ports(a) + {e.port}
    ensures Cleared(a + [e]) == Cleared(a) + if e.before then {} else {e.port}
  {
    var t := a + [e];
    forall x | x in t
      ensures x in a || x == e
    {
    }
    assert t[|a|] == e;
    assert forall x :: x in a ==> x in t;
  }

  /** The record keeps the ports, and marks for clearing what was not trapped. */
  lemma {:induction false} RecordedPorts(trapped: set<nat>, t: Table)
    ensures Ports(Recorded(trapped, t)) == Ports(t)
    ensures Cleared(Recorded(trapped, t)) == Ports(t) - trapped
  {
    if t != [] {
      var p, e := t[..|t| - 1], t[|t| - 1];
      RecordedPorts(trapped, p);
      assert t == p + [e];
      PortsAppend(p, e);
      PortsAppend(Recorded(trapped, p), Entry(e.port, e.port in trapped + Ports(p), e.handler));
    }
  }

  lemma AllPortsAppend(links: seq<Table>, t: Table)
    ensures AllPorts(links + [t]) == AllPorts(links) + Ports(t)
  {
    assert (links + [t])[..|links|] == links;
  }

  lemma InstallKeepsOk(s: Traps, t: Table, base: set<nat>)
    requires TrapsOk(s, base)
    ensures TrapsOk(Install(s, t), base)
  {
    var r := Recorded(s.trapped, t);
    RecordedPorts(s.trapped, t);
    AllPortsAppend(s.links, r);
    var links := s.links + [r];
    hide Recorded, Cleared, Ports, AllPorts;
    forall i | 0 <= i < |links|
      ensures Cleared(links[i]) == Ports(links[i]) - (base + AllPorts(links[..i]))
    {
      if i < |s.links| {
        assert links[..i] == s.links[..i];
      } else {
        assert links[..i] == s.links;
      }
    }
  }

  // ---------------------------------------------------------------- removal in any order

  /** No port that table `k` was the first to trap is listed by a table installed after it. */
  predicate NotShared(links: seq<Table>, k: nat)
    requires k < |links|
  {
    forall i :: k < i < |links| ==> Cleared(links[k]) !! Ports(links[i])
  }

  lemma {:induction false} AllPortsMember(links: seq<Table>, p: nat)
    ensures p in AllPorts(links) <==> exists i :: 0 <= i < |links| && p in Ports(links[i])
  {
    hide Ports;
    if links != [] {
      var front := links[..|links| - 1];
      AllPortsMember(front, p);
      if p in AllPorts(front) {
        var i :| 0 <= i < |front| && p in Ports(front[i]);
        assert p in Ports(links[i]);
      } else if i :| 0 <= i < |links| && p in Ports(links[i]) {
        assert i < |front| ==> p in Ports(front[i]);
      }
    }
  }

  lemma {:induction false} AllPortsConcat(a: seq<Table>, b: seq<Table>)
    ensures AllPorts(a + b) == AllPorts(a) + AllPorts(b)
  {
    hide Ports;
    if b == [] {
      assert a + b == a;
    } else {
      AllPortsConcat(a, b[..|b| - 1]);
      assert a + b == (a + b[..|b| - 1]) + [b[|b| - 1]];
      AllPortsAppend(a + b[..|b| - 1], b[|b| - 1]);
    }
  }

  lemma AllPortsSplit(links: seq<Table>, k: nat)
    requires k < |links|
    ensures AllPorts(links) == AllPorts(links[..k]) + Ports(links[k]) + AllPorts(links[k + 1..])
  {
    hide AllPorts, Ports;
    assert links == (links[..k] + [links[k]]) + links[k + 1..];
    AllPortsConcat(links[..k] + [links[k]], links[k + 1..]);
    AllPortsAppend(links[..k], links[k]);
  }

  lemma SharedWithLater(links: seq<Table>, k: nat)
    requires k < |links|
    ensures NotShared(links, k) <==> Cleared(links[k]) !! AllPorts(links[k + 1..])
  {
    hide Ports, Cleared, AllPorts;
    var later := links[k + 1..];
    forall p
      ensures p in AllPorts(later) <==> exists i :: 0 <= i < |later| && p in Ports(later[i])
    {
      AllPortsMember(later, p);
    }
    if NotShared(links, k) {
      assert forall i :: 0 <= i < |later| ==> later[i] == links[k + 1 + i];
    } else {
      var i :| k < i < |links| && !(Cleared(links[k]) !! Ports(links[i]));
      var p :| p in Cleared(links[k]) && p in Ports(links[i]);
      assert p in Ports(later[i - k - 1]);
    }
  }

  /** The sets behind one removal: `a` before it, `t` its own ports, `c` after it, `cl` what it clears. */
  lemma RemovalOfSets(base: set<nat>, a: set<nat>, t: set<nat>, c: set<nat>, cl: set<nat>)
    requires cl == t - (base + a)
    ensures base + (a + t + c) - cl == base + (a + c) <==> cl !! c
  {
    if base + (a + t + c) - cl == base + (a + c) {
      forall p | p in cl
        ensures p !in c
      {
        assert p !in base + (a + t + c) - cl;
      }
    }
  }

  /**
   * Removing a table leaves exactly the right ports trapped if and only if none of the ports it was the
   * first to trap is listed by a later table that is still live.
   */
  lemma UninstallIsRightIff(s: Traps, k: nat, base: set<nat>)
    requires TrapsOk(s, base) && k < |s.links|
    ensures Right(Uninstall(s, k), base) <==> NotShared(s.links, k)
  {
    AllPortsSplit(s.links, k);
    AllPortsConcat(s.links[..k], s.links[k + 1..]);
    SharedWithLater(s.links, k);
    hide Ports, Cleared, AllPorts, NotShared;
    RemovalOfSets(base, AllPorts(s.links[..k]), Ports(s.links[k]), AllPorts(s.links[k + 1..]), Cleared(s.links[k]));
  }

  lemma OwnersAfterRemoval(links: seq<Table>, k: nat, base: set<nat>, i: nat)
    requires FirstOwners(links, base) && k < i < |links| && NotShared(links, k)
    ensures Cleared(links[i]) == Ports(links[i]) - (base + AllPorts(links[..k] + links[k + 1..i]))
  {
    AllPortsSplit(links[..i], k);
    assert links[..i][..k] == links[..k] && links[..i][k + 1..] == links[k + 1..i];
    AllPortsConcat(links[..k], links[k + 1..i]);
    assert Cleared(links[k]) !! Ports(links[i]);
    hide Ports, Cleared, AllPorts, NotShared;
  }

  lemma OwnerOf(links: seq<Table>, base: set<nat>, i: nat)
    requires FirstOwners(links, base) && i < |links|
    ensures Cleared(links[i]) == Ports(links[i]) - (base + AllPorts(links[..i]))
  {
  }

  lemma OwnerAt(links: seq<Table>, k: nat, base: set<nat>, i: nat)
    requires FirstOwners(links, base) && k < |links| && NotShared(links, k) && i < |links| - 1
    ensures var r := links[..k] + links[k + 1..];
            Cleared(r[i]) == Ports(r[i]) - (base + AllPorts(r[..i]))
  {
    hide Ports, Cleared, AllPorts, NotShared, FirstOwners;
    var r := links[..k] + links[k + 1..];
    if i < k {
      assert r[..i] == links[..i];
      OwnerOf(links, base, i);
    } else {
      OwnersAfterRemoval(links, k, base, i + 1);
      assert r[..i] == links[..k] + links[k + 1..i + 1];
    }
  }

  lemma OwnersKept(links: seq<Table>, k: nat, base: set<nat>)
    requires FirstOwners(links, base) && k < |links| && NotShared(links, k)
    ensures FirstOwners(links[..k] + links[k + 1..], base)
  {
    hide Ports, Cleared, AllPorts, NotShared;
    var r := links[..k] + links[k + 1..];
    forall i | 0 <= i < |r|
      ensures Cleared(r[i]) == Ports(r[i]) - (base + AllPorts(r[..i]))
    {
      OwnerAt(links, k, base, i);
    }
  }

  /** Such a removal also keeps what every other table will clear right. */
  lemma UninstallKeepsOk(s: Traps, k: nat, base: set<nat>)
    requires TrapsOk(s, base) && k < |s.links| && NotShared(s.links, k)
    ensures TrapsOk(Uninstall(s, k), base)
  {
    hide FirstOwners, NotShared, Cleared, AllPorts;
    UninstallIsRightIff(s, k, base);
    OwnersKept(s.links, k, base);
  }

  /** Tables with disjoint ports can be removed in any order; any tables can, the last installed first. */
  lemma DisjointOrLastIsNotShared(links: seq<Table>, k: nat)
    requires k < |links|
    requires k == |links| - 1 || forall i :: 0 <= i < |links| && i != k ==> Ports(links[k]) !! Ports(links[i])
    ensures NotShared(links, k)
  {
    assert Cleared(links[k]) <= Ports(links[k]);
  }

  datatype Event = Installed(t: Table) | Uninstalled(k: nat)

  /** Runs in which every removal, of a live table, meets the condition. */
  ghost predicate RunOk(s: Traps, es: seq<Event>)
    decreases |es|
  {
    es == [] || match es[0]
    case Installed(t) => RunOk(Install(s, t), es[1..])
    case Uninstalled(k) => k < |s.links| && NotShared(s.links, k) && RunOk(Uninstall(s, k), es[1..])
  }

  ghost function Run(s: Traps, es: seq<Event>): (s': Traps)
    requires RunOk(s, es)
    decreases |es|
  {
    if es == [] then s
    else match es[0]
    case Installed(t) => Run(Install(s, t), es[1..])
    case Uninstalled(k) => Run(Uninstall(s, k), es[1..])
  }

  /** After every such run exactly the original ports and those of live tables are trapped. */
  lemma {:induction false} EveryRunIsRight(s: Traps, es: seq<Event>, base: set<nat>)
    requires TrapsOk(s, base) && RunOk(s, es)
    ensures TrapsOk(Run(s, es), base)
    decreases |es|
  {
    if es != [] {
      match es[0]
      case Installed(t) =>
        InstallKeepsOk(s, t, base);
        EveryRunIsRight(Install(s, t), es[1..], base);
      case Uninstalled(k) =>
        UninstallKeepsOk(s, k, base);
        EveryRunIsRight(Uninstall(s, k), es[1..], base);
    }
  }

  lemma NothingInstalled(base: set<nat>)
    ensures TrapsOk(Traps(base, []), base)
  {
  }

  /** In particular when all tables are gone again, the ports trapped are those trapped before the first came. */
  lemma AllRemovedIsAsBefore(base: set<nat>, es: seq<Event>)
    requires RunOk(Traps(base, []), es)
    ensures TrapsOk(Run(Traps(base, []), es), base)
    ensures Run(Traps(base, []), es).links == [] ==> Run(Traps(base, []), es).trapped == base
  {
    NothingInstalled(base);
    EveryRunIsRight(Traps(base, []), es, base);
  }

  /** Every port trapped beyond the original ones has a handler. */
  lemma TrappedHasHandler(s: Traps, base: set<nat>, port: nat)
    requires TrapsOk(s, base) && port in s.trapped && port !in base
    ensures Dispatch(s.links, port).Some?
  {
    AllPortsMember(s.links, port);
    var i :| 0 <= i < |s.links| && port in Ports(s.links[i]);
    var e :| e in s.links[i] && e.port == port;
    var a :| 0 <= a < |s.links[i]| && s.links[i][a] == e;
    assert Lists(s.links[i], port);
    UnlistedIsNotDispatched(s.links, port);
  }

  /** Two tables for one port, the first removed first: the port is no longer trapped although the second is live. */
  lemma SharedPortExample()
    ensures var s := Uninstall(Install(Install(Traps({}, []), [Entry(0x388, false, 1)]), [Entry(0x388, false, 2)]), 0);
            s.trapped == {} && Dispatch(s.links, 0x388) == Some(2)
  {
  }

  // ---------------------------------------------------------------- the linked chain

  /** A link of the chain, or its header. */
  class Link {
    var table: Table
    var prev: Link?
    var next: Link?

    constructor (table: Table, prev: Link?)
      ensures this.table == table && this.prev == prev && next == null
    {
      this.table, this.prev, next := table, prev, null;
    }
  }

  ghost predicate Linked(chain: seq<Link>)
    reads chain`next, chain`prev
  {
    && (forall i, j :: 0 <= i && j == i + 1 && j < |chain| ==> chain[i].next == chain[j] && chain[j].prev == chain[i])
    && (|chain| > 0 ==> chain[|chain| - 1].next == null)
  }

  ghost predicate Distinct(chain: seq<Link>) { forall i, j :: 0 <= i < j < |chain| ==> chain[i] != chain[j] }

  lemma DistinctWithout(chain: seq<Link>, k: nat)
    requires Distinct(chain) && 0 < k < |chain|
    ensures Distinct(chain[..k] + chain[k + 1..])
    ensures chain[|chain| - 1] == chain[k] <==> k == |chain| - 1
  {
  }

  /** Connects the neighbours of a link with each other; returns the one before it. */
  method Detach(ghost chain: seq<Link>, ghost k: nat, link: Link) returns (before: Link)
    requires Linked(chain) && Distinct(chain) && 0 < k < |chain| && link == chain[k]
    modifies chain`next, chain`prev
    ensures Linked(chain[..k] + chain[k + 1..]) && before == chain[k - 1]
  {
    assert chain[k - 1].next == chain[k] && chain[k].prev == chain[k - 1];
    assert k + 1 < |chain| ==> chain[k].next == chain[k + 1];
    before := link.prev;
    before.next := link.next;
    if link.next != null {
      link.next.prev := before;
    }
  }

  lemma RecordedNone(trapped: set<nat>, t: Table)
    requires t == []
    ensures Recorded(trapped, t) == [] && Ports(t) == {}
  {
  }

  lemma RecordedAppend(trapped: set<nat>, t: Table, i: nat)
    requires i < |t|
    ensures Recorded(trapped, t[..i + 1])
         == Recorded(trapped, t[..i]) + [Entry(t[i].port, t[i].port in trapped + Ports(t[..i]), t[i].handler)]
    ensures Ports(t[..i + 1]) == Ports(t[..i]) + {t[i].port}
  {
    assert t[..i + 1][..i] == t[..i] && t[..i + 1] == t[..i] + [t[i]];
    PortsAppend(t[..i], t[i]);
  }

  /** The static header and tail of a chain, and the ports that the memory manager traps. */
  class Chain {
    const header: Link
    var tail: Link
    var trapped: set<nat>
    ghost var nodes: seq<Link>
    ghost var tables: seq<Table>

    ghost predicate Valid()
      reads this`tail, this`nodes, this`tables, header`next, header`prev, nodes`next, nodes`prev, nodes`table
    {
      && Linked([header] + nodes) && Distinct([header] + nodes) && tail == ([header] + nodes)[|nodes|]
      && |nodes| == |tables| && forall i :: 0 <= i < |nodes| ==> nodes[i].table == tables[i]
    }

    ghost function Abs(): (s: Traps)
      reads this
    {
      Traps(trapped, tables)
    }

    constructor (trapped: set<nat>)
      ensures Valid() && Abs() == Traps(trapped, [])
    {
      var h := new Link([], null);
      header, tail := h, h;
      this.trapped, nodes, tables := trapped, [], [];
    }

    /** Looks up and traps every port of a table in turn. */
    method TrapPorts(t: Table) returns (r: Table)
      modifies this`trapped
      ensures r == Recorded(old(trapped), t) && trapped == old(trapped) + Ports(t)
    {
      RecordedNone(trapped, t[..0]);
      hide Recorded, Ports;
      r := [];
      var i := 0;
      while i < |t|
        modifies this`trapped
        invariant i <= |t| && r == Recorded(old(trapped), t[..i]) && trapped == old(trapped) + Ports(t[..i])
      {
        var e := t[i];
        RecordedAppend(old(trapped), t, i);
        r := r + [Entry(e.port, e.port in trapped, e.handler)];
        trapped := trapped + {e.port};
        i := i + 1;
      }
      assert t[..i] == t;
    }

    /** Appends a link for a table. */
    method Append(t: Table) returns (link: Link)
      requires Valid()
      modifies this`tail, this`nodes, this`tables, header`next, nodes`next
      ensures Valid() && fresh(link) && nodes == old(nodes) + [link] && tables == old(tables) + [t]
    {
      ghost var chain := [header] + nodes;
      link := new Link(t, tail);
      tail.next := link;
      tail := link;
      nodes, tables := nodes + [link], tables + [t];
      assert [header] + nodes == chain + [link];
    }

    /** Installs a table under QEMM; the link is the handle. */
    method QemmInstall(t: Table) returns (link: Link)
      requires Valid()
      modifies this, header, nodes
      ensures Valid() && Abs() == Install(old(Abs()), t) && nodes == old(nodes) + [link] && fresh(link)
    {
      hide Linked, Distinct, Recorded, Ports;
      var r := TrapPorts(t);
      link := Append(r);
    }

    /** Takes a link out of the chain. */
    method Unlink(link: Link, ghost k: nat)
      requires Valid() && k < |nodes| && nodes[k] == link
      modifies this`tail, this`nodes, this`tables, header`next, header`prev, nodes`next, nodes`prev
      ensures Valid() && nodes == old(nodes)[..k] + old(nodes)[k + 1..]
              && tables == old(tables)[..k] + old(tables)[k + 1..]
    {
      hide Linked, Distinct;
      ghost var chain := [header] + nodes;
      DistinctWithout(chain, k + 1);
      var before := Detach(chain, k + 1, link);
      if tail == link {
        tail := before;
      }
      nodes, tables := nodes[..k] + nodes[k + 1..], tables[..k] + tables[k + 1..];
      assert [header] + nodes == chain[..k + 1] + chain[k + 2..];
    }

    /** Removes a table under QEMM and clears the ports it was the first to trap. */
    method QemmUninstall(link: Link, ghost k: nat)
      requires Valid() && k < |nodes| && nodes[k] == link
      modifies this, header, nodes
      ensures Valid() && Abs() == Uninstall(old(Abs()), k) && nodes == old(nodes)[..k] + old(nodes)[k + 1..]
    {
      Unlink(link, k);
      ClearPorts(link.table);
    }

    method ClearPorts(t: Table)
      modifies this`trapped
      ensures trapped == old(trapped) - Cleared(t)
    {
      var i := 0;
      while i < |t|
        modifies this`trapped
        invariant i <= |t| && trapped == old(trapped) - Cleared(t[..i])
      {
        assert t[..i + 1] == t[..i] + [t[i]];
        PortsAppend(t[..i], t[i]);
        if !t[i].before {
          trapped := trapped - {t[i].port};
        }
        i := i + 1;
      }
      assert t[..i] == t;
    }

    method SearchTable(t: Table, port: nat) returns (h: Option<nat>)
      ensures h == InTable(t, port)
    {
      var i := 0;
      while i < |t|
        invariant i <= |t| && InTable(t, port) == InTable(t[i..], port)
      {
        if t[i].port == port {
          return Some(t[i].handler);
        }
        i := i + 1;
      }
      return None;
    }

    /** Searches the links from the header on; None means that the access is passed on. */
    method Handle(port: nat) returns (h: Option<nat>)
      requires Valid()
      ensures h == Dispatch(tables, port)
    {
      hide InTable;
      ghost var chain, i := [header] + nodes, 0;
      var link := header.next;
      assert |nodes| > 0 ==> chain[0].next == chain[1];
      while link != null
        invariant i <= |nodes| && link == (if i < |nodes| then nodes[i] else null)
        invariant Dispatch(tables, port) == Dispatch(tables[i..], port)
        decreases |nodes| - i
      {
        h := SearchTable(link.table, port);
        if h.Some? {
          return;
        }
        assert i + 2 < |chain| ==> chain[i + 1].next == chain[i + 2];
        link, i := link.next, i + 1;
      }
      return None;
    }
  }
}
