/** Dumping a message again (section 7.6 of 3GPP TS 29.274 asks for identical retransmissions).
    Some `dump_to` methods change the object they write; FQ-CSID swaps its identifiers in place. */
module Retransmission {
  import opened Octets
  import opened Elements
  import opened Messages

  /** A 16-bit number with its octets exchanged, as htons leaves it on a little-endian host. */
  function Swap(n: u16): u16 {
    n % 256 * 256 + n / 256
  }

  function SwapAll(csids: seq<u16>): (r: seq<u16>)
    ensures |r| == |csids|
  {
    if csids == [] then [] else [Swap(csids[0])] + SwapAll(csids[1..])
  }

  /** Prepared leaves throughout a tree. */
  function Settled(ie: Ie): (r: Ie)
    requires Dumpable(ie)
    ensures Dumpable(r) && (r.body.Group? <==> ie.body.Group?)
    decreases ie, 1
  {
    if ie.body.Group? then ie.(body := Group(SettledAll(ie.body.ies))) else Prepared(ie)
  }

  function SettledAll(ies: seq<Ie>): (r: seq<Ie>)
    requires DumpableAll(ies)
    ensures DumpableAll(r)
    decreases ies, 0
  {
    if ies == [] then [] else [Settled(ies[0])] + SettledAll(ies[1..])
  }

  /** An element after it has been dumped once. */
  function After(ie: Ie): (r: Ie)
    requires Dumpable(ie)
    ensures Dumpable(r) && (r.body.Group? <==> ie.body.Group?)
    decreases ie, 1
  {
    match ie.body
    case Group(ies) => ie.(body := Group(AfterAll(ies)))
    case FqCsid(counts, node, csids) => ie.(body := FqCsid(counts, node, SwapAll(csids)))
    case _ => Prepared(ie)
  }

  function AfterAll(ies: seq<Ie>): (r: seq<Ie>)
    requires DumpableAll(ies)
    ensures DumpableAll(r)
    decreases ies, 0
  {
    if ies == [] then [] else [After(ies[0])] + AfterAll(ies[1..])
  }

  lemma PreparedTwice(ie: Ie)
    requires Dumpable(ie) && !ie.body.Group?
    ensures Prepared(Prepared(ie)) == Prepared(ie)
  {
    if ie.body.Digits? && ie.kind == MSISDN {
      var b, n := ie.body.b, if ie.body.count > 15 then 15 else ie.body.count;
      if n % 2 == 1 {
        var f := b[n / 2 := FillHigh(b[n / 2])];
        assert f[n / 2 := FillHigh(f[n / 2])] == f;
      }
    }
  }

  lemma SwapSwap(n: u16)
    ensures Swap(Swap(n)) == n
  {
    var high, low := n / 256, n % 256;
    assert Swap(n) / 256 == low && Swap(n) % 256 == high;
  }

  lemma {:induction false} SwapTwice(csids: seq<u16>)
    ensures SwapAll(SwapAll(csids)) == csids
  {
    if csids != [] {
      SwapSwap(csids[0]);
      SwapTwice(csids[1..]);
      assert SwapAll(csids)[1..] == SwapAll(csids[1..]);
      assert csids == [csids[0]] + csids[1..];
    }
  }

  // ---- settling changes nothing that is written ----

  lemma {:induction false} DumpSettled(ie: Ie)
    requires Dumpable(ie)
    ensures Dump(Settled(ie)) == Dump(ie)
    decreases ie, 1
  {
    if ie.body.Group? {
      DumpSettledAll(ie.body.ies);
    } else {
      PreparedTwice(ie);
    }
  }

  lemma {:induction false} DumpSettledAll(ies: seq<Ie>)
    requires DumpableAll(ies)
    ensures DumpAll(SettledAll(ies)) == DumpAll(ies)
    decreases ies, 0
  {
    if ies != [] {
      DumpSettled(ies[0]);
      DumpSettledAll(ies[1..]);
      assert SettledAll(ies)[1..] == SettledAll(ies[1..]);
    }
  }

  lemma {:induction false} AfterSettled(ie: Ie)
    requires Dumpable(ie)
    ensures After(Settled(ie)) == After(ie)
    decreases ie, 1
  {
    if ie.body.Group? {
      AfterSettledAll(ie.body.ies);
    } else {
      PreparedTwice(ie);
    }
  }

  lemma {:induction false} AfterSettledAll(ies: seq<Ie>)
    requires DumpableAll(ies)
    ensures AfterAll(SettledAll(ies)) == AfterAll(ies)
    decreases ies, 0
  {
    if ies != [] {
      AfterSettled(ies[0]);
      AfterSettledAll(ies[1..]);
      assert SettledAll(ies)[1..] == SettledAll(ies[1..]);
    }
  }

  /** Two dumps bring every element back to its settled state. */
  lemma {:induction false} AfterTwice(ie: Ie)
    requires Dumpable(ie)
    ensures After(After(ie)) == Settled(ie)
    decreases ie, 1
  {
    match ie.body
    case Group(ies) => AfterTwiceAll(ies);
    case FqCsid(_, _, csids) => SwapTwice(csids);
    case _ => PreparedTwice(ie);
  }

  lemma {:induction false} AfterTwiceAll(ies: seq<Ie>)
    requires DumpableAll(ies)
    ensures AfterAll(AfterAll(ies)) == SettledAll(ies)
    decreases ies, 0
  {
    if ies != [] {
      AfterTwice(ies[0]);
      AfterTwiceAll(ies[1..]);
      assert AfterAll(ies)[1..] == AfterAll(ies[1..]);
    }
  }

  // ---- when one dump already writes the same again ----

  predicate SymmetricCsids(csids: seq<u16>) {
    forall i :: 0 <= i < |csids| ==> csids[i] / 256 == csids[i] % 256
  }

  /** Every FQ-CSID identifier in the tree has two equal octets. */
  predicate Symmetric(ie: Ie)
    decreases ie, 1
  {
    match ie.body
    case Group(ies) => SymmetricAll(ies)
    case FqCsid(_, _, csids) => SymmetricCsids(csids)
    case _ => true
  }

  predicate SymmetricAll(ies: seq<Ie>)
    decreases ies, 0
  {
    ies == [] || (Symmetric(ies[0]) && SymmetricAll(ies[1..]))
  }

  lemma SwapWord(n: u16)
    ensures Word(Swap(n)) == [n % 256, n / 256]
    ensures Word(Swap(n)) == Word(n) <==> n / 256 == n % 256
  {
    assert Word(n)[0] == n / 256 && Word(n)[1] == n % 256;
  }

  /** Equal octet strings made of parts of equal length have equal parts. */
  lemma SplitEqual(a: bytes, b: bytes, c: bytes, d: bytes)
    requires |a| == |c|
    ensures a + b == c + d <==> a == c && b == d
  {
    if a + b == c + d {
      assert a == (a + b)[..|a|] == (c + d)[..|a|] == c;
      assert b == (a + b)[|a|..] == (c + d)[|a|..] == d;
    }
  }

  lemma {:induction false} SwappedCsids(csids: seq<u16>)
    ensures |CsidBytes(SwapAll(csids))| == |CsidBytes(csids)|
    ensures CsidBytes(SwapAll(csids)) == CsidBytes(csids) <==> SymmetricCsids(csids)
  {
    if csids != [] {
      var x, more := csids[0], csids[1..];
      SwappedCsids(more);
      assert SwapAll(csids)[1..] == SwapAll(more);
      SwapWord(x);
      SplitEqual(Word(Swap(x)), CsidBytes(SwapAll(more)), Word(x), CsidBytes(more));
      assert SymmetricCsids(csids) <==> x / 256 == x % 256 && SymmetricCsids(more);
    }
  }

  lemma FqCsidAgain(ie: Ie)
    requires Dumpable(ie) && ie.body.FqCsid?
    ensures |Dump(After(ie))| == |Dump(ie)|
    ensures Dump(After(ie)) == Dump(ie) <==> Symmetric(ie)
  {
    var csids := ie.body.csids;
    SwappedCsids(csids);
    var front := Header(ie.kind, ie.length, ie.tag) + ([ie.body.counts] + NodeBytes(ie.body.node));
    Assoc(Header(ie.kind, ie.length, ie.tag), [ie.body.counts] + NodeBytes(ie.body.node), CsidBytes(csids));
    Assoc(Header(ie.kind, ie.length, ie.tag), [ie.body.counts] + NodeBytes(ie.body.node), CsidBytes(SwapAll(csids)));
    SplitEqual(front, CsidBytes(SwapAll(csids)), front, CsidBytes(csids));
  }

  lemma {:induction false} AgainIe(ie: Ie)
    requires Dumpable(ie)
    ensures |Dump(After(ie))| == |Dump(ie)|
    ensures Dump(After(ie)) == Dump(ie) <==> Symmetric(ie)
    decreases ie, 1
  {
    if ie.body.Group? {
      AgainAll(ie.body.ies);
      var h := Header(ie.kind, ie.length, ie.tag);
      SplitEqual(h, DumpAll(AfterAll(ie.body.ies)), h, DumpAll(ie.body.ies));
    } else if ie.body.FqCsid? {
      FqCsidAgain(ie);
    } else {
      PreparedTwice(ie);
    }
  }

  lemma {:induction false} AgainAll(ies: seq<Ie>)
    requires DumpableAll(ies)
    ensures |DumpAll(AfterAll(ies))| == |DumpAll(ies)|
    ensures DumpAll(AfterAll(ies)) == DumpAll(ies) <==> SymmetricAll(ies)
    decreases ies, 0
  {
    if ies != [] {
      AgainIe(ies[0]);
      AgainAll(ies[1..]);
      assert AfterAll(ies)[1..] == AfterAll(ies[1..]);
      SplitEqual(Dump(After(ies[0])), DumpAll(AfterAll(ies[1..])), Dump(ies[0]), DumpAll(ies[1..]));
    }
  }

  // ---- whole messages ----

  /** The priority flag is cleared after it was written when there is no TEID. */
  function FlagsAfter(flags: byte): (r: byte)
    ensures r % 4 == 0 && HasTeid(r) == HasTeid(flags)
    ensures HasPriority(r) <==> HasPriority(flags) && HasTeid(flags)
  {
    var q, s := flags / 8, flags % 8 / 4;
    assert flags - flags % 4 == 8 * q + 4 * s;
    if HasTeid(flags) then flags - flags % 4 else 8 * q
  }

  function AfterMsg(m: Msg): (r: Msg)
    requires DumpableAll(m.ies)
    ensures DumpableAll(r.ies)
  {
    m.(flags := FlagsAfter(m.flags),
       priority := if HasTeid(m.flags) && HasPriority(m.flags) then m.priority - m.priority % 16 else 0,
       ies := AfterAll(m.ies))
  }

  /** The octets of transmission k of a message, counting the first as 0. */
  function NthDump(m: Msg, k: nat): bytes
    requires DumpableAll(m.ies)
    decreases k
  {
    if k == 0 then DumpMsg(m) else NthDump(AfterMsg(m), k - 1)
  }

  /** A priority flag without a TEID is written once and then forgotten; only a received header has it. */
  predicate SteadyHeader(m: Msg) {
    HasTeid(m.flags) || !HasPriority(m.flags)
  }

  lemma HeaderAgain(m: Msg)
    requires DumpableAll(m.ies)
    ensures |HeaderBytes(AfterMsg(m))| == |HeaderBytes(m)|
    ensures HeaderBytes(AfterMsg(m)) == HeaderBytes(m) <==> SteadyHeader(m)
  {
    var a := AfterMsg(m);
    assert HeaderBytes(m)[0] == m.flags - m.flags % 4 && HeaderBytes(a)[0] == a.flags;
    assert !SteadyHeader(m) ==> a.flags != m.flags - m.flags % 4;
  }

  /** The second transmission repeats the first exactly when the header is steady and every FQ-CSID
      identifier is symmetric. */
  lemma SecondDump(m: Msg)
    requires DumpableAll(m.ies)
    ensures NthDump(m, 1) == NthDump(m, 0) <==> SteadyHeader(m) && SymmetricAll(m.ies)
  {
    HeaderAgain(m);
    AgainAll(m.ies);
    SplitEqual(HeaderBytes(AfterMsg(m)), DumpAll(AfterAll(m.ies)), HeaderBytes(m), DumpAll(m.ies));
    assert NthDump(m, 1) == NthDump(AfterMsg(m), 0);
  }

  lemma {:induction false} SymmetricAfter(ies: seq<Ie>)
    requires DumpableAll(ies) && SymmetricAll(ies)
    ensures SymmetricAll(AfterAll(ies))
    decreases ies, 0
  {
    if ies != [] {
      SymmetricAfterIe(ies[0]);
      SymmetricAfter(ies[1..]);
      assert AfterAll(ies)[1..] == AfterAll(ies[1..]);
    }
  }

  lemma {:induction false} SymmetricAfterIe(ie: Ie)
    requires Dumpable(ie) && Symmetric(ie)
    ensures Symmetric(After(ie))
    decreases ie, 1
  {
    match ie.body
    case Group(ies) => SymmetricAfter(ies);
    case FqCsid(_, _, csids) => SymmetricSwap(csids);
    case _ =>
  }

  lemma {:induction false} SymmetricSwap(csids: seq<u16>)
    requires SymmetricCsids(csids)
    ensures SwapAll(csids) == csids
  {
    if csids != [] {
      SymmetricSwap(csids[1..]);
      assert csids == [csids[0]] + csids[1..];
    }
  }

  lemma {:induction false} RepeatsForever(m: Msg, k: nat)
    requires DumpableAll(m.ies) && SteadyHeader(m) && SymmetricAll(m.ies)
    ensures NthDump(m, k) == NthDump(m, 0)
    decreases k
  {
    if k > 0 {
      SymmetricAfter(m.ies);
      RepeatsForever(AfterMsg(m), k - 1);
      SecondDump(m);
      assert NthDump(m, 1) == NthDump(AfterMsg(m), 0);
    }
  }

  /** Every retransmission equals the original if and only if no FQ-CSID identifier in the message
      changes when its octets are exchanged (and the header is steady, as every built one is). */
  lemma IdenticalRetransmission(m: Msg)
    requires DumpableAll(m.ies)
    ensures (forall k: nat :: NthDump(m, k) == NthDump(m, 0)) <==> SteadyHeader(m) && SymmetricAll(m.ies)
  {
    SecondDump(m);
    if SteadyHeader(m) && SymmetricAll(m.ies) {
      forall k: nat ensures NthDump(m, k) == NthDump(m, 0) {
        RepeatsForever(m, k);
      }
    } else {
      assert NthDump(m, 1) != NthDump(m, 0);
    }
  }

  lemma HeaderTwice(m: Msg)
    requires DumpableAll(m.ies) && SteadyHeader(m)
    ensures var a := AfterMsg(m); AfterMsg(a).flags == a.flags && AfterMsg(a).priority == a.priority
    ensures SteadyHeader(AfterMsg(m))
  {
  }

  lemma {:induction false} SettledDumps(m: Msg, k: nat)
    requires DumpableAll(m.ies) && SteadyHeader(m)
    ensures NthDump(AfterMsg(AfterMsg(m)), k) == NthDump(m, k)
  {
    var n := AfterMsg(AfterMsg(m));
    AfterTwiceAll(m.ies);
    HeaderTwice(m);
    HeaderTwice(AfterMsg(m));
    if k == 0 {
      DumpSettledAll(m.ies);
      HeaderAgain(m);
      HeaderAgain(AfterMsg(m));
    } else {
      AfterSettledAll(m.ies);
      assert AfterMsg(n) == AfterMsg(m);
    }
  }

  /** In any case the transmissions alternate between two octet strings. */
  lemma PeriodTwo(m: Msg, k: nat)
    requires DumpableAll(m.ies) && SteadyHeader(m)
    ensures NthDump(m, k + 2) == NthDump(m, k)
  {
    SettledDumps(m, k);
    assert NthDump(m, k + 2) == NthDump(AfterMsg(m), k + 1) == NthDump(AfterMsg(AfterMsg(m)), k);
  }
}
