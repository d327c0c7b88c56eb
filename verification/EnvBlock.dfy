/**
 * The editor of the DOS environment block: strings "name=value", each ended by a NUL, and a further NUL
 * after the last one. A variable is set by removing its string and appending the new one, in place.
 */
module EnvBlock {

  /** Bytes are numbers; a string has no NUL. */
  type Str = seq<nat>

  const EQ := 61

  predicate StrOk(s: Str) { s != [] && forall i :: 0 <= i < |s| ==> s[i] != 0 }

  predicate StrsOk(ss: seq<Str>) { forall i :: 0 <= i < |ss| ==> StrOk(ss[i]) }

  /** The strings with their terminators. */
  function Body(ss: seq<Str>): (b: seq<nat>) { if ss == [] then [] else ss[0] + [0] + Body(ss[1..]) }

  function Encode(ss: seq<Str>): (b: seq<nat>) { Body(ss) + [0] }

  function StrLen(b: seq<nat>): (n: nat)
    ensures n <= |b|
    ensures forall i :: 0 <= i < n ==> b[i] != 0
    ensures n < |b| ==> b[n] == 0
  {
    if b == [] || b[0] == 0 then 0 else 1 + StrLen(b[1..])
  }

  /** The strings a reader of the block finds: up to the first empty one. */
  function Decode(b: seq<nat>): (ss: seq<Str>) {
    var n := StrLen(b);
    if n == 0 || n >= |b| then [] else [b[..n]] + Decode(b[n + 1..])
  }

  lemma StrLenOf(s: Str, rest: seq<nat>)
    requires forall i :: 0 <= i < |s| ==> s[i] != 0
    ensures StrLen(s + [0] + rest) == |s|
  {
    var b := s + [0] + rest;
    assert b[|s|] == 0;
    assert forall i :: 0 <= i < |s| ==> b[i] == s[i];
  }

  /** Reading gives back what was written, whatever follows the block. */
  lemma {:induction false} DecodeEncode(ss: seq<Str>, junk: seq<nat>)
    requires StrsOk(ss)
    ensures Decode(Encode(ss) + junk) == ss
  {
    var b := Encode(ss) + junk;
    if ss == [] {
      assert b[0] == 0;
    } else {
      var rest := Encode(ss[1..]) + junk;
      assert b == ss[0] + [0] + rest;
      StrLenOf(ss[0], rest);
      assert b[..|ss[0]|] == ss[0] && b[|ss[0]| + 1..] == rest;
      DecodeEncode(ss[1..], junk);
    }
  }

  lemma {:induction false} BodyAppend(a: seq<Str>, b: seq<Str>)
    ensures Body(a + b) == Body(a) + Body(b)
  {
    if a == [] {
      assert a + b == b;
    } else {
      BodyAppend(a[1..], b);
      assert (a + b)[1..] == a[1..] + b;
      assert a[0] + [0] + (Body(a[1..]) + Body(b)) == a[0] + [0] + Body(a[1..]) + Body(b);
    }
  }

  lemma BodyOne(s: Str)
    ensures Body([s]) == s + [0]
  {
    assert [s][1..] == [];
  }

  // ---------------------------------------------------------------- names

  function Lower(c: nat): (d: nat) { if 65 <= c <= 90 then c + 32 else c }

  /** Bytes match if they are the same or one letter in both cases; the letters are those of ASCII. */
  lemma MatchIffSameLetter(a: nat, b: nat)
    ensures Lower(a) == Lower(b) <==>
      a == b || ('A' as int <= a <= 'Z' as int && b == a + 32) || ('A' as int <= b <= 'Z' as int && a == b + 32)
  {
  }

  /** Whether a string sets the variable `name`, in whatever case. */
  predicate Sets(s: Str, name: Str) {
    |s| > |name| && s[|name|] == EQ && forall i :: 0 <= i < |name| ==> Lower(s[i]) == Lower(name[i])
  }

  /** The same test on raw memory, which does not know where the string ends. */
  predicate SetsAt(b: seq<nat>, p: nat, name: Str)
    requires p + |name| < |b|
  {
    b[p + |name|] == EQ && forall i :: 0 <= i < |name| ==> Lower(b[p + i]) == Lower(name[i])
  }

  /** Reading past the terminator does no harm: no name contains one. */
  lemma RawTestIsExact(b: seq<nat>, p: nat, s: Str, name: Str)
    requires p + |name| < |b| && p + |s| < |b| && b[p..p + |s|] == s && b[p + |s|] == 0
    requires forall i :: 0 <= i < |name| ==> name[i] != 0
    ensures SetsAt(b, p, name) <==> Sets(s, name)
  {
    if |s| < |name| {
      assert Lower(b[p + |s|]) == 0 && Lower(name[|s|]) != 0;
    } else {
      assert forall i :: 0 <= i < |s| ==> b[p + i] == s[i];
    }
  }

  // ---------------------------------------------------------------- the edit

  /** The editor's pass: a string that sets the name is removed, and the one after it kept without a look. */
  function Edit(ss: seq<Str>, name: Str): (r: seq<Str>) {
    if ss == [] then []
    else if !Sets(ss[0], name) then [ss[0]] + Edit(ss[1..], name)
    else if |ss| == 1 then []
    else [ss[1]] + Edit(ss[2..], name)
  }

  /** What was meant: all strings but those that set the name. */
  function Others(ss: seq<Str>, name: Str): (r: seq<Str>) {
    if ss == [] then [] else (if Sets(ss[0], name) then [] else [ss[0]]) + Others(ss[1..], name)
  }

  ghost predicate NoneAdjacent(ss: seq<Str>, name: Str) {
    forall i, j :: 0 <= i && j == i + 1 && j < |ss| ==> !(Sets(ss[i], name) && Sets(ss[j], name))
  }

  lemma NoneAdjacentFrom(ss: seq<Str>, name: Str, k: nat)
    requires k <= |ss|
    ensures NoneAdjacent(ss, name) ==> NoneAdjacent(ss[k..], name)
    ensures k == 1 && !Sets(ss[0], name) ==> (NoneAdjacent(ss[1..], name) ==> NoneAdjacent(ss, name))
    ensures k == 2 && !Sets(ss[1], name) ==> (NoneAdjacent(ss[2..], name) ==> NoneAdjacent(ss, name))
  {
    var t := ss[k..];
    assert forall i :: 0 <= i < |t| ==> t[i] == ss[i + k];
    assert forall i :: k <= i < |ss| ==> ss[i] == t[i - k];
  }

  lemma {:induction false} EditSize(ss: seq<Str>, name: Str)
    ensures |Others(ss, name)| <= |Edit(ss, name)| <= |ss|
    ensures |Edit(ss, name)| == |Others(ss, name)| ==> NoneAdjacent(ss, name)
    decreases |ss|
  {
    if ss != [] {
      if !Sets(ss[0], name) {
        EditSize(ss[1..], name);
        NoneAdjacentFrom(ss, name, 1);
      } else if |ss| > 1 {
        EditSize(ss[2..], name);
        assert ss[1..][1..] == ss[2..];
        NoneAdjacentFrom(ss, name, 2);
      }
    }
  }

  lemma {:induction false} EditRemovesAll(ss: seq<Str>, name: Str)
    requires NoneAdjacent(ss, name)
    ensures Edit(ss, name) == Others(ss, name)
    decreases |ss|
  {
    if ss != [] {
      if !Sets(ss[0], name) {
        NoneAdjacentFrom(ss, name, 1);
        EditRemovesAll(ss[1..], name);
      } else if |ss| > 1 {
        NoneAdjacentFrom(ss, name, 2);
        EditRemovesAll(ss[2..], name);
        assert ss[1..][1..] == ss[2..] && ss[1..][0] == ss[1];
      }
    }
  }

  /** The old settings are all removed, and nothing else is, exactly if no two of them are next to each other. */
  lemma EditIsExactIff(ss: seq<Str>, name: Str)
    ensures Edit(ss, name) == Others(ss, name) <==> NoneAdjacent(ss, name)
  {
    EditSize(ss, name);
    if NoneAdjacent(ss, name) {
      EditRemovesAll(ss, name);
    }
  }

  lemma {:induction false} OthersDoNotSet(ss: seq<Str>, name: Str)
    ensures forall i :: 0 <= i < |Others(ss, name)| ==> !Sets(Others(ss, name)[i], name)
    ensures (forall i :: 0 <= i < |ss| ==> !Sets(ss[i], name)) ==> Others(ss, name) == ss
  {
    if ss != [] {
      OthersDoNotSet(ss[1..], name);
      if forall i :: 0 <= i < |ss| ==> !Sets(ss[i], name) {
        assert forall i :: 0 <= i < |ss[1..]| ==> ss[1..][i] == ss[i + 1];
        assert ss == [ss[0]] + ss[1..];
      }
    }
  }

  function Setting(name: Str, value: Str): (s: Str) { name + [EQ] + value }

  /** The strings a successful edit leaves in a block that held some. */
  function Edited(ss: seq<Str>, name: Str, value: Str): (r: seq<Str>) { Edit(ss, name) + [Setting(name, value)] }

  /** Then the variable is set once, to the new value, by the last string; all others are as they were. */
  lemma SetOnce(ss: seq<Str>, name: Str, value: Str)
    requires NoneAdjacent(ss, name)
    ensures var r := Edited(ss, name, value);
            && r[..|r| - 1] == Others(ss, name) && Sets(r[|r| - 1], name)
            && r[|r| - 1][|name| + 1..] == value
            && forall i :: 0 <= i < |r| - 1 ==> !Sets(r[i], name)
  {
    EditIsExactIff(ss, name);
    OthersDoNotSet(ss, name);
    var r := Edited(ss, name, value);
    assert r[..|r| - 1] == Edit(ss, name);
  }

  /** Two settings of one name in a row: one of them survives, in front of the new one. */
  lemma AdjacentExample(name: Str, v: Str, w: Str)
    ensures Edit([Setting(name, v), Setting(name, w)], name) == [Setting(name, w)]
  {
    assert [Setting(name, v), Setting(name, w)][2..] == [];
    assert Sets(Setting(name, v), name);
  }

  lemma {:induction false} EditedOk(ss: seq<Str>, name: Str)
    requires StrsOk(ss)
    ensures StrsOk(Edit(ss, name))
    decreases |ss|
  {
    if ss != [] {
      if !Sets(ss[0], name) {
        EditedOk(ss[1..], name);
      } else if |ss| > 1 {
        EditedOk(ss[2..], name);
      }
    }
  }

  // ---------------------------------------------------------------- the block in memory

  predicate NoNul(s: Str) { forall i :: 0 <= i < |s| ==> s[i] != 0 }

  /** Strings as they follow each other in memory; only the first may be empty. */
  predicate RunOk(ss: seq<Str>) { forall i :: 0 <= i < |ss| ==> NoNul(ss[i]) && (i > 0 ==> ss[i] != []) }

  /** From `p` on, memory holds these strings and the NUL that ends the block. */
  predicate Holds(b: seq<nat>, p: nat, ss: seq<Str>) {
    p + |Encode(ss)| <= |b| && b[p..p + |Encode(ss)|] == Encode(ss)
  }

  /** The first string starts at `p`, and behind its terminator the others follow. */
  lemma HoldsFirst(b: seq<nat>, p: nat, ss: seq<Str>)
    requires Holds(b, p, ss) && ss != []
    ensures |Encode(ss)| == |ss[0]| + 1 + |Encode(ss[1..])|
    ensures b[p..p + |ss[0]|] == ss[0] && b[p + |ss[0]|] == 0 && Holds(b, p + |ss[0]| + 1, ss[1..])
  {
    var r := Encode(ss[1..]);
    assert Encode(ss) == ss[0] + ([0] + r);
    SliceParts(b, p, ss[0], [0] + r);
    SliceParts(b, p + |ss[0]|, [0], r);
    assert b[p + |ss[0]|] == b[p + |ss[0]|..p + |ss[0]| + 1][0];
  }

  lemma SliceParts(b: seq<nat>, p: nat, x: seq<nat>, y: seq<nat>)
    requires p + |x| + |y| <= |b| && b[p..p + |x| + |y|] == x + y
    ensures b[p..p + |x|] == x && b[p + |x|..p + |x| + |y|] == y
  {
    assert b[p..p + |x|] == b[p..p + |x| + |y|][..|x|];
    assert b[p + |x|..p + |x| + |y|] == b[p..p + |x| + |y|][|x|..];
  }

  /** A NUL at `p` means that no string follows. */
  lemma HoldsEnd(b: seq<nat>, p: nat, ss: seq<Str>)
    requires Holds(b, p, ss) && RunOk(ss) && (ss != [] ==> ss[0] != [])
    ensures p < |b| && (b[p] == 0 <==> ss == [])
  {
    if ss == [] {
      assert b[p] == b[p..p + 1][0];
    } else {
      HoldsFirst(b, p, ss);
      assert b[p] == b[p..p + |ss[0]|][0];
    }
  }

  method StrLenAt(buf: array<nat>, p: nat, ghost s: Str) returns (n: nat)
    requires p + |s| < buf.Length && buf[p..p + |s|] == s && buf[p + |s|] == 0 && NoNul(s)
    ensures n == |s|
  {
    n := 0;
    while buf[p + n] != 0
      invariant n <= |s|
      decreases |s| - n
    {
      assert n < |s| ==> buf[p + n] == buf[p..p + |s|][n] == s[n];
      n := n + 1;
    }
  }

  /** The length of the string at `p`. */
  method FirstLength(buf: array<nat>, p: nat, ghost rest: seq<Str>) returns (n: nat)
    requires rest != [] && Holds(buf[..], p, rest) && NoNul(rest[0])
    ensures n == |rest[0]|
  {
    HoldsFirst(buf[..], p, rest);
    assert buf[..][p..p + |rest[0]|] == buf[p..p + |rest[0]|];
    n := StrLenAt(buf, p, rest[0]);
  }

  method MatchesAt(buf: array<nat>, p: nat, name: Str) returns (m: bool)
    requires p + |name| < buf.Length
    ensures m == SetsAt(buf[..], p, name)
  {
    var i := 0;
    while i < |name|
      invariant i <= |name| && forall j :: 0 <= j < i ==> Lower(buf[p + j]) == Lower(name[j])
    {
      if Lower(buf[p + i]) != Lower(name[i]) {
        return false;
      }
      i := i + 1;
    }
    m := buf[p + |name|] == EQ;
  }

  function Moved(b: seq<nat>, p: nat, n: nat, size: nat): (r: seq<nat>)
    requires p + n <= size <= |b|
    ensures |r| == |b|
  {
    b[..p] + b[p + n..size] + b[size - n..]
  }

  /** Moves the bytes from `p + n` up to `size` down by `n`; the last `n` stay as they are. */
  method MoveDown(buf: array<nat>, p: nat, n: nat, size: nat)
    requires p + n <= size <= buf.Length
    modifies buf
    ensures buf[..] == Moved(old(buf[..]), p, n, size)
  {
    var i := p;
    while i + n < size
      invariant p <= i <= size - n
      invariant forall j :: 0 <= j < buf.Length ==> buf[j] == if p <= j < i then old(buf[j + n]) else old(buf[j])
    {
      buf[i] := buf[i + n];
      i := i + 1;
    }
    hide Moved;
    MovedPointwise(old(buf[..]), buf[..], p, n, size);
  }

  lemma MovedPointwise(was: seq<nat>, b: seq<nat>, p: nat, n: nat, size: nat)
    requires p + n <= size <= |was| == |b|
    requires forall j :: 0 <= j < |b| ==> b[j] == was[if p <= j < size - n then j + n else j]
    ensures b == Moved(was, p, n, size)
  {
  }

  /** Where the NUL that ends the block is; every block is taken to hold a string, be it an empty one. */
  method EndOf(buf: array<nat>, ghost ss: seq<Str>) returns (p: nat)
    requires ss != [] && RunOk(ss) && Holds(buf[..], 0, ss)
    ensures p == |Body(ss)|
  {
    p := 0;
    ghost var rest := ss;
    var more := true;
    while more
      invariant RunOk(rest) && Holds(buf[..], p, rest) && p + |Body(rest)| == |Body(ss)|
      invariant more <==> rest != []
      decreases |rest|
    {
      HoldsFirst(buf[..], p, rest);
      var n := FirstLength(buf, p, rest);
      p := p + n + 1;
      rest := rest[1..];
      HoldsEnd(buf[..], p, rest);
      more := buf[p] != 0;
    }
  }

  /** Removes the string at `p` by moving everything behind it down. */
  method RemoveAt(buf: array<nat>, p: nat, size: nat, ghost rest: seq<Str>)
    requires rest != [] && Holds(buf[..], p, rest) && NoNul(rest[0]) && p + |Encode(rest)| <= size <= buf.Length
    modifies buf
    ensures Holds(buf[..], p, rest[1..]) && |Encode(rest[1..])| <= |Encode(rest)| && buf[..p] == old(buf[..p])
  {
    hide Holds, Encode, NoNul, Moved;
    HoldsFirst(buf[..], p, rest);
    var n := FirstLength(buf, p, rest);
    ghost var was := buf[..];
    MoveDown(buf, p, n + 1, size);
    MovedHolds(was, buf[..], p, n + 1, size, rest[1..]);
  }

  lemma MovedHolds(was: seq<nat>, b: seq<nat>, p: nat, n: nat, size: nat, ss: seq<Str>)
    requires p + n + |Encode(ss)| <= size <= |was| && Holds(was, p + n, ss)
    requires b == Moved(was, p, n, size)
    ensures Holds(b, p, ss) && b[..p] == was[..p]
  {
    hide Encode;
    var m := |Encode(ss)|;
    var moved := was[p + n..size];
    assert b[p..p + |moved|] == moved;
    assert b[p..p + m] == b[p..p + |moved|][..m];
    assert moved[..m] == was[p + n..p + n + m];
  }

  lemma EncodeSize(ss: seq<Str>)
    ensures |Encode(ss)| == |Body(ss)| + 1 && (ss == [] ==> Body(ss) == [])
  {
  }

  /** Steps over the string at `p`, which thereby is kept. */
  method StepOver(buf: array<nat>, p: nat, ghost done: seq<Str>, ghost rest: seq<Str>) returns (p': nat, more: bool)
    requires rest != [] && RunOk(rest) && Holds(buf[..], p, rest) && p <= buf.Length && buf[..p] == Body(done)
    ensures p' == p + |rest[0]| + 1 <= buf.Length && Holds(buf[..], p', rest[1..])
    ensures p' + |Encode(rest[1..])| == p + |Encode(rest)|
    ensures buf[..p'] == Body(done + [rest[0]]) && (more <==> rest[1..] != [])
  {
    HoldsFirst(buf[..], p, rest);
    var n := FirstLength(buf, p, rest);
    p' := p + n + 1;
    HoldsEnd(buf[..], p', rest[1..]);
    more := buf[p'] != 0;
    BodyAppend(done, [rest[0]]);
    BodyOne(rest[0]);
    assert buf[..p'] == buf[..p] + buf[p..p + n] + [buf[p + n]];
  }

  predicate SomeSets(ss: seq<Str>, name: Str) { exists i :: 0 <= i < |ss| && Sets(ss[i], name) }

  /** Whether the string at `p` sets the name. */
  method TestAt(buf: array<nat>, p: nat, name: Str, ghost rest: seq<Str>) returns (m: bool)
    requires rest != [] && Holds(buf[..], p, rest) && p + |name| < buf.Length && NoNul(name)
    ensures m == Sets(rest[0], name)
  {
    HoldsFirst(buf[..], p, rest);
    RawTestIsExact(buf[..], p, rest[0], name);
    m := MatchesAt(buf, p, name);
  }

  /** How far the pass has come: `done` is kept, `rest` is to be looked at. */
  ghost predicate SoFar(ss: seq<Str>, done: seq<Str>, rest: seq<Str>, name: Str, rewrite: bool) {
    && Edit(ss, name) == done + Edit(rest, name)
    && (!rewrite ==> done + rest == ss && !SomeSets(done, name))
  }

  lemma KeepsOne(ss: seq<Str>, done: seq<Str>, rest: seq<Str>, name: Str, rewrite: bool)
    requires rest != [] && SoFar(ss, done, rest, name, rewrite) && !Sets(rest[0], name)
    ensures SoFar(ss, done + [rest[0]], rest[1..], name, rewrite)
  {
    assert Edit(rest, name) == [rest[0]] + Edit(rest[1..], name);
    if !rewrite {
      NoneSets(done, rest[0], name);
    }
    hide Sets, SomeSets, Edit;
    Regroup(done, rest[0], Edit(rest[1..], name));
    Regroup(done, rest[0], rest[1..]);
    assert rest == [rest[0]] + rest[1..];
  }

  lemma NoneSets(done: seq<Str>, s: Str, name: Str)
    requires !SomeSets(done, name) && !Sets(s, name)
    ensures !SomeSets(done + [s], name)
  {
    hide Sets;
  }

  lemma Regroup(done: seq<Str>, s: Str, more: seq<Str>)
    ensures done + ([s] + more) == done + [s] + more
  {
  }

  /** After a removal the next string, if there is one, is kept without a look. */
  lemma DropsOne(ss: seq<Str>, done: seq<Str>, rest: seq<Str>, name: Str)
    requires rest != [] && SoFar(ss, done, rest, name, true) && Sets(rest[0], name)
    ensures |rest| == 1 ==> SoFar(ss, done, [], name, true)
    ensures |rest| > 1 ==> SoFar(ss, done + [rest[1]], rest[2..], name, true)
  {
    if |rest| > 1 {
      Regroup(done, rest[1], Edit(rest[2..], name));
    }
    hide Sets, SomeSets;
  }

  lemma FindsOne(ss: seq<Str>, done: seq<Str>, rest: seq<Str>, name: Str)
    requires rest != [] && SoFar(ss, done, rest, name, false) && Sets(rest[0], name)
    ensures SomeSets(ss, name)
  {
    hide Sets, Edit;
    assert ss[|done|] == rest[0];
  }

  lemma AllDone(ss: seq<Str>, done: seq<Str>, name: Str, rewrite: bool)
    requires SoFar(ss, done, [], name, rewrite)
    ensures Edit(ss, name) == done && (!rewrite ==> !SomeSets(ss, name))
  {
    assert done + [] == done;
  }

  lemma RunOkFrom(ss: seq<Str>, k: nat)
    requires RunOk(ss) && k <= |ss|
    ensures RunOk(ss[k..]) && (k < |ss| ==> NoNul(ss[k]) && (k > 0 ==> ss[k] != []))
  {
  }

  /** Removes the string at `p`; returns whether another one follows. */
  method RemoveFirst(buf: array<nat>, p: nat, size: nat, ghost rest: seq<Str>) returns (more: bool)
    requires rest != [] && RunOk(rest) && Holds(buf[..], p, rest) && p + |Encode(rest)| <= size <= buf.Length
    modifies buf
    ensures Holds(buf[..], p, rest[1..]) && |Encode(rest[1..])| <= |Encode(rest)| && buf[..p] == old(buf[..p])
    ensures RunOk(rest[1..]) && p < buf.Length && (more <==> rest[1..] != [])
  {
    hide Holds, Encode, RunOk, NoNul;
    RunOkFrom(rest, 0);
    RunOkFrom(rest, 1);
    RemoveAt(buf, p, size, rest);
    HoldsEnd(buf[..], p, rest[1..]);
    more := buf[p] != 0;
  }

  /** The editing pass; returns where the new string goes, or fails if there is an old one not to be replaced. */
  method Remove(buf: array<nat>, size: nat, name: Str, rewrite: bool, ghost ss: seq<Str>) returns (fail: bool, p: nat)
    requires ss != [] && RunOk(ss) && Holds(buf[..], 0, ss) && NoNul(name)
    requires |Encode(ss)| <= size && size + |name| <= buf.Length
    modifies buf
    ensures fail <==> !rewrite && SomeSets(ss, name)
    ensures !fail ==> p <= |Body(ss)| && p < buf.Length && buf[..p] == Body(Edit(ss, name))
  {
    hide Holds, Sets, Body, Encode, Edit, SoFar, SomeSets, RunOk, NoNul;
    p := 0;
    ghost var done: seq<Str>, rest := [], ss;
    Begins(ss, name, rewrite);
    var more := true;
    while more
      invariant RunOk(rest) && Holds(buf[..], p, rest) && p + |Encode(rest)| <= |Encode(ss)|
      invariant p < buf.Length && buf[..p] == Body(done)
      invariant SoFar(ss, done, rest, name, rewrite)
      invariant more <==> rest != []
      decreases |rest|
    {
      EncodeSize(rest);
      var m := TestAt(buf, p, name, rest);
      if m {
        if !rewrite {
          FindsOne(ss, done, rest, name);
          return true, p;
        }
        DropsOne(ss, done, rest, name);
        more := RemoveFirst(buf, p, size, rest);
        rest := rest[1..];
        if !more { break; }
      } else {
        KeepsOne(ss, done, rest, name, rewrite);
      }
      RunOkFrom(rest, 1);
      p, more := StepOver(buf, p, done, rest);
      done, rest := done + [rest[0]], rest[1..];
      EncodeSize(rest);
    }
    EncodeSize(rest);
    AllDone(ss, done, name, rewrite);
    return false, p;
  }

  lemma Begins(ss: seq<Str>, name: Str, rewrite: bool)
    ensures SoFar(ss, [], ss, name, rewrite) && Body([]) == [] && |Encode(ss)| == |Body(ss)| + 1
  {
  }

  /** Copies a string's bytes into memory. */
  method Put(buf: array<nat>, p: nat, s: Str)
    requires p + |s| <= buf.Length
    modifies buf
    ensures buf[..] == old(buf[..p]) + s + old(buf[p + |s|..])
  {
    var i := 0;
    while i < |s|
      invariant i <= |s|
      invariant forall j :: 0 <= j < buf.Length ==> buf[j] == if p <= j < p + i then s[j - p] else old(buf[j])
    {
      buf[p + i] := s[i];
      i := i + 1;
    }
    PutPointwise(old(buf[..]), buf[..], p, s);
    assert old(buf[..])[..p] == old(buf[..p]) && old(buf[..])[p + |s|..] == old(buf[p + |s|..]);
  }

  lemma PutPointwise(was: seq<nat>, b: seq<nat>, p: nat, s: Str)
    requires p + |s| <= |was| == |b|
    requires forall j :: 0 <= j < |b| ==> b[j] == if p <= j < p + |s| then s[j - p] else was[j]
    ensures b == was[..p] + s + was[p + |s|..]
  {
  }

  /** The test for space: the block as it is, the new string, and three NULs must fit. */
  predicate NoSpace(ss: seq<Str>, name: Str, value: Str, size: nat) {
    |Body(ss)| + 1 + (|name| + 1) + 1 + (|value| + 1) > size
  }

  /** It asks for the room of the whole block with the new string appended, and for one byte more. */
  lemma SpaceTestIff(ss: seq<Str>, name: Str, value: Str, size: nat)
    ensures NoSpace(ss, name, value, size) <==> |Encode(ss + [Setting(name, value)])| + 1 > size
  {
    BodyAppend(ss, [Setting(name, value)]);
    BodyOne(Setting(name, value));
  }

  /** The test is safe: the edited block, its end included, fits whenever it passes. */
  lemma {:induction false} EditedFits(ss: seq<Str>, name: Str, value: Str, size: nat)
    requires !NoSpace(ss, name, value, size)
    ensures |Encode(Edited(ss, name, value))| < size
  {
    EditShrinks(ss, name);
    BodyAppend(Edit(ss, name), [Setting(name, value)]);
    BodyOne(Setting(name, value));
  }

  lemma {:induction false} EditShrinks(ss: seq<Str>, name: Str)
    ensures |Body(Edit(ss, name))| <= |Body(ss)|
    decreases |ss|
  {
    if ss != [] {
      if !Sets(ss[0], name) {
        EditShrinks(ss[1..], name);
        assert ([ss[0]] + Edit(ss[1..], name))[1..] == Edit(ss[1..], name);
      } else if |ss| > 1 {
        EditShrinks(ss[2..], name);
        assert ss[1..][1..] == ss[2..];
        assert ([ss[1]] + Edit(ss[2..], name))[1..] == Edit(ss[2..], name);
      }
    }
  }

  /**
   * What a reader finds afterwards: the edited strings if the block held any. Editing an empty block leaves
   * its empty string in front of the new one, so that a reader still finds nothing.
   */
  lemma ReadAfterwards(b: seq<nat>, ss: seq<Str>, name: Str, value: Str)
    requires ss != [] && RunOk(ss) && NoNul(name) && NoNul(value) && Holds(b, 0, Edited(ss, name, value))
    ensures ss[0] != [] ==> Decode(b) == Edited(ss, name, value)
    ensures ss[0] == [] ==> Decode(b) == []
  {
    var r := Edited(ss, name, value);
    if ss[0] != [] {
      EditedOk(ss, name);
      assert StrsOk(r);
      assert b == Encode(r) + b[|Encode(r)|..];
      DecodeEncode(r, b[|Encode(r)|..]);
    } else {
      assert r[0] == [];
      assert Encode(r)[0] == 0;
      assert b[0] == b[0..|Encode(r)|][0];
    }
  }

  /** What `setenv` makes of the environment's memory. */
  method SetEnv(mem: array<nat>, name: Str, value: Str, rewrite: bool, ghost ss: seq<Str>) returns (result: int)
    requires ss != [] && RunOk(ss) && Holds(mem[..], 0, ss) && NoNul(name) && NoNul(value)
    modifies mem
    ensures result == 0 || result == -1
    ensures result == -1 <==> name == [] || value == [] || NoSpace(ss, name, value, mem.Length)
                              || (!rewrite && SomeSets(ss, name))
    ensures result == -1 ==> mem[..] == old(mem[..])
    ensures result == 0 ==> Holds(mem[..], 0, Edited(ss, name, value))
  {
    if name == [] || value == [] {
      return -1;
    }
    var size := mem.Length;
    var buf := new nat[size + |name| + 1 + |value| + 1](_ => 0);
    Load(buf, mem, ss);
    var used := EndOf(buf, ss);
    if used + 1 + (|name| + 1) + 1 + (|value| + 1) > size {
      return -1;
    }
    EncodeSize(ss);
    var fail, p := Remove(buf, size, name, rewrite, ss);
    if fail {
      return -1;
    }
    Put(buf, p, Setting(name, value) + [0, 0]);
    WrittenHolds(buf[..], p, Edit(ss, name), Setting(name, value), size);
    Store(mem, buf, Edited(ss, name, value));
    return 0;
  }

  method Load(buf: array<nat>, mem: array<nat>, ghost ss: seq<Str>)
    requires buf != mem && mem.Length <= buf.Length && Holds(mem[..], 0, ss)
    modifies buf
    ensures Holds(buf[..], 0, ss)
  {
    var i := 0;
    while i < mem.Length
      invariant i <= mem.Length && buf[..i] == mem[..i]
    {
      buf[i] := mem[i];
      i := i + 1;
    }
    HoldsCopied(mem[..], buf[..], ss);
  }

  method Store(mem: array<nat>, buf: array<nat>, ghost ss: seq<Str>)
    requires buf != mem && mem.Length <= buf.Length && Holds(buf[..mem.Length], 0, ss)
    modifies mem
    ensures Holds(mem[..], 0, ss)
  {
    var i := 0;
    while i < mem.Length
      invariant i <= mem.Length && mem[..i] == buf[..i]
    {
      mem[i] := buf[i];
      i := i + 1;
    }
    assert mem[..] == buf[..mem.Length];
  }

  lemma HoldsCopied(a: seq<nat>, b: seq<nat>, ss: seq<Str>)
    requires |a| <= |b| && b[..|a|] == a && Holds(a, 0, ss)
    ensures Holds(b, 0, ss)
  {
    var m := |Encode(ss)|;
    assert b[0..m] == b[..|a|][0..m];
  }

  lemma WrittenHolds(b: seq<nat>, p: nat, kept: seq<Str>, s: Str, size: nat)
    requires p + |s| + 2 <= size <= |b| && b[..p] == Body(kept) && b[p..p + |s| + 2] == s + [0, 0]
    ensures Holds(b[..size], 0, kept + [s])
  {
    EncodeAppend(kept, s);
    hide Body, Encode;
    SlicesJoin(b, p, p + |s| + 2, size);
  }

  lemma EncodeAppend(kept: seq<Str>, s: Str)
    ensures Encode(kept + [s]) == Body(kept) + (s + [0, 0])
  {
    BodyAppend(kept, [s]);
    BodyOne(s);
    assert Body(kept) + (s + [0]) + [0] == Body(kept) + (s + [0, 0]);
  }

  lemma SlicesJoin(b: seq<nat>, p: nat, q: nat, size: nat)
    requires p <= q <= size <= |b|
    ensures b[..size][0..q] == b[..p] + b[p..q]
  {
  }
}
