/**
 LocalFragmentReassembler: fragments with the BEGIN and END flags of an Aeron data frame,
 put back together into the messages that were sent.
 */
module Reassembler {
  import opened Bytes

  datatype Fragment = Fragment(flags: byte, data: Text)

  const BEGIN_FLAG: int := 0x80
  const END_FLAG: int := 0x40

  predicate Begins(f: Fragment) { f.flags / BEGIN_FLAG % 2 == 1 }

  predicate Ends(f: Fragment) { f.flags / END_FLAG % 2 == 1 }

  /** An unfragmented message. */
  predicate Whole(f: Fragment) { Begins(f) && Ends(f) }

  /** Neither first nor last. */
  predicate Middle(f: Fragment) { !Begins(f) && !Ends(f) }

  datatype Assembly = Assembly(acc: Text, delivered: seq<Text>)

  function Accept(a: Assembly, f: Fragment): (r: Assembly) {
    if Whole(f) then a.(delivered := a.delivered + [f.data])
    else
      var acc := (if Begins(f) then [] else a.acc) + f.data;
      if Ends(f) then Assembly([], a.delivered + [acc]) else a.(acc := acc)
  }

  function AcceptAll(a: Assembly, fs: seq<Fragment>): (r: Assembly)
    decreases |fs|
  {
    if fs == [] then a else AcceptAll(Accept(a, fs[0]), fs[1..])
  }

  /** The class: `delivered` records the calls of the sink. */
  class LocalFragmentReassembler {
    var acc: Text
    var delivered: seq<Text>

    ghost function State(): Assembly
      reads this
    {
      Assembly(acc, delivered)
    }

    constructor ()
      ensures State() == Assembly([], [])
    {
      acc, delivered := [], [];
    }

    method OnFragment(flags: byte, data: Text)
      modifies this
      ensures State() == Accept(old(State()), Fragment(flags, data))
    {
      if flags / BEGIN_FLAG % 2 == 1 && flags / END_FLAG % 2 == 1 {
        delivered := delivered + [data];
        return;
      }
      if flags / BEGIN_FLAG % 2 == 1 {
        acc := [];
      }
      acc := acc + data;
      if flags / END_FLAG % 2 == 1 {
        delivered := delivered + [acc];
        acc := [];
      }
    }

    method Poll(fs: seq<Fragment>)
      modifies this
      ensures State() == AcceptAll(old(State()), fs)
    {
      var i := 0;
      while i < |fs|
        invariant i <= |fs|
        invariant AcceptAll(State(), fs[i..]) == AcceptAll(old(State()), fs)
      {
        assert fs[i..][0] == fs[i] && fs[i..][1..] == fs[i + 1..];
        OnFragment(fs[i].flags, fs[i].data);
        i := i + 1;
      }
    }
  }

  lemma {:induction false} AcceptAllConcat(a: Assembly, fs: seq<Fragment>, gs: seq<Fragment>)
    ensures AcceptAll(a, fs + gs) == AcceptAll(AcceptAll(a, fs), gs)
    decreases |fs|
  {
    if fs == [] {
      assert fs + gs == gs;
    } else {
      assert (fs + gs)[1..] == fs[1..] + gs;
      AcceptAllConcat(Accept(a, fs[0]), fs[1..], gs);
    }
  }

  /** The bytes of the pieces, without the unfragmented messages between them. */
  function Joined(fs: seq<Fragment>): Text {
    if fs == [] then [] else (if Whole(fs[0]) then [] else fs[0].data) + Joined(fs[1..])
  }

  /** The unfragmented messages among the pieces. */
  function Unfragmented(fs: seq<Fragment>): seq<Text> {
    if fs == [] then [] else (if Whole(fs[0]) then [fs[0].data] else []) + Unfragmented(fs[1..])
  }

  predicate Interior(fs: seq<Fragment>) {
    forall f :: f in fs ==> Middle(f) || Whole(f)
  }

  lemma {:induction false} InteriorRun(a: Assembly, fs: seq<Fragment>)
    requires Interior(fs)
    ensures AcceptAll(a, fs) == Assembly(a.acc + Joined(fs), a.delivered + Unfragmented(fs))
    decreases |fs|
  {
    if fs == [] {
      assert a.acc + [] == a.acc && a.delivered + [] == a.delivered;
    } else {
      InteriorRun(Accept(a, fs[0]), fs[1..]);
      Reassociate(a.acc, if Whole(fs[0]) then [] else fs[0].data, Joined(fs[1..]));
      Reassociate(a.delivered, if Whole(fs[0]) then [fs[0].data] else [], Unfragmented(fs[1..]));
      assert a.acc + [] == a.acc && a.delivered + [] == a.delivered;
    }
  }

  /**
   What a sender puts on the stream: a message in one fragment; a message in a first, some
   interior and a last fragment; or one whose last fragment never arrives. Unfragmented
   messages may arrive between the pieces of the other two.
   */
  datatype Sent =
    | InOne(only: Fragment)
    | InMany(first: Fragment, interior: seq<Fragment>, last: Fragment)
    | Abandoned(first: Fragment, interior: seq<Fragment>)

  predicate WellFormed(s: Sent) {
    match s
    case InOne(only) => Whole(only)
    case InMany(first, interior, last) =>
      Begins(first) && !Ends(first) && Interior(interior) && Ends(last) && !Begins(last)
    case Abandoned(first, interior) => Begins(first) && !Ends(first) && Interior(interior)
  }

  function Fragments(s: Sent): seq<Fragment> {
    match s
    case InOne(only) => [only]
    case InMany(first, interior, last) => [first] + interior + [last]
    case Abandoned(first, interior) => [first] + interior
  }

  /** The messages that must come out, in order. */
  function Messages(s: Sent): seq<Text> {
    match s
    case InOne(only) => [only.data]
    case InMany(first, interior, last) => Unfragmented(interior) + [first.data + Joined(interior) + last.data]
    case Abandoned(first, interior) => Unfragmented(interior)
  }

  function AllFragments(ss: seq<Sent>): seq<Fragment> {
    if ss == [] then [] else Fragments(ss[0]) + AllFragments(ss[1..])
  }

  function AllMessages(ss: seq<Sent>): seq<Text> {
    if ss == [] then [] else Messages(ss[0]) + AllMessages(ss[1..])
  }

  /** A first fragment and its interior, from any accumulator contents. */
  lemma OpenedRun(a: Assembly, first: Fragment, interior: seq<Fragment>)
    requires Begins(first) && !Ends(first) && Interior(interior)
    ensures AcceptAll(a, [first] + interior)
            == Assembly(first.data + Joined(interior), a.delivered + Unfragmented(interior))
  {
    var begun := Accept(a, first);
    assert ([first] + interior)[1..] == interior;
    assert [] + first.data == first.data;
    InteriorRun(begun, interior);
  }

  lemma OneSentRun(a: Assembly, s: Sent)
    requires WellFormed(s)
    ensures AcceptAll(a, Fragments(s)).delivered == a.delivered + Messages(s)
  {
    match s
    case InOne(only) =>
      assert Fragments(s)[1..] == [];
    case InMany(first, interior, last) =>
      OpenedRun(a, first, interior);
      AcceptAllConcat(a, [first] + interior, [last]);
      assert [last][1..] == [];
      Reassociate(a.delivered, Unfragmented(interior), [first.data + Joined(interior) + last.data]);
    case Abandoned(first, interior) =>
      OpenedRun(a, first, interior);
  }

  /**
   From any accumulator contents, the messages delivered are exactly those that were sent
   in full, in order: an abandoned message is dropped at the next BEGIN, and unfragmented
   messages that arrive mid-assembly are delivered without disturbing it.
   */
  lemma {:induction false} DeliversExactlyTheMessages(a: Assembly, ss: seq<Sent>)
    requires forall s :: s in ss ==> WellFormed(s)
    ensures AcceptAll(a, AllFragments(ss)).delivered == a.delivered + AllMessages(ss)
    decreases |ss|
  {
    if ss == [] {
      assert a.delivered + [] == a.delivered;
    } else {
      var first := AcceptAll(a, Fragments(ss[0]));
      AcceptAllConcat(a, Fragments(ss[0]), AllFragments(ss[1..]));
      OneSentRun(a, ss[0]);
      DeliversExactlyTheMessages(first, ss[1..]);
      Reassociate(a.delivered, Messages(ss[0]), AllMessages(ss[1..]));
    }
  }

  /** `s` is one way of cutting `message` into fragments with nothing in between. */
  predicate Cuts(s: Sent, message: Text) {
    match s
    case InOne(only) => Whole(only) && only.data == message
    case InMany(first, interior, last) =>
      WellFormed(s) && (forall f :: f in interior ==> Middle(f)) &&
      first.data + Joined(interior) + last.data == message
    case Abandoned(_, _) => false
  }

  lemma {:induction false} NoneUnfragmented(fs: seq<Fragment>)
    requires forall f :: f in fs ==> Middle(f)
    ensures Unfragmented(fs) == []
    decreases |fs|
  {
    if fs != [] {
      assert fs[0] in fs;
      NoneUnfragmented(fs[1..]);
    }
  }

  lemma CutMessageArrives(a: Assembly, s: Sent, message: Text)
    requires Cuts(s, message)
    ensures AcceptAll(a, Fragments(s)).delivered == a.delivered + [message]
  {
    OneSentRun(a, s);
    if s.InMany? { NoneUnfragmented(s.interior); }
  }

  // ---- Arbitrary streams ----

  predicate LastPiece(f: Fragment) { Ends(f) && !Begins(f) }

  /** Fragment j is the BEGIN of what fragment i goes on with. */
  predicate Opens(fs: seq<Fragment>, j: nat, i: nat)
    requires i <= |fs|
  {
    j < i && Begins(fs[j]) && !Ends(fs[j]) && Interior(fs[j + 1..i])
  }

  /** Where the accumulator was last emptied before fragment i: after the last END, or at the start. */
  function Since(fs: seq<Fragment>, i: nat): (k: nat)
    requires i <= |fs|
    ensures k <= i
  {
    if i == 0 then 0 else if LastPiece(fs[i - 1]) then i else Since(fs, i - 1)
  }

  /** There is no BEGIN between that place and fragment i. */
  predicate Headless(fs: seq<Fragment>, i: nat)
    requires i <= |fs|
  {
    Interior(fs[Since(fs, i)..i])
  }

  lemma {:induction false} HeadlessOrOpened(fs: seq<Fragment>, i: nat)
    requires i <= |fs|
    ensures Headless(fs, i) || exists j: nat :: Opens(fs, j, i)
    decreases i
  {
    if i > 0 && !LastPiece(fs[i - 1]) {
      if Begins(fs[i - 1]) && !Ends(fs[i - 1]) {
        assert Opens(fs, i - 1, i);
      } else {
        HeadlessOrOpened(fs, i - 1);
        if Headless(fs, i - 1) {
          assert fs[Since(fs, i)..i] == fs[Since(fs, i)..i - 1] + [fs[i - 1]];
        } else {
          var j: nat :| Opens(fs, j, i - 1);
          assert fs[j + 1..i] == fs[j + 1..i - 1] + [fs[i - 1]];
          assert Opens(fs, j, i);
        }
      }
    }
  }

  lemma {:induction false} OpenedIsNotHeadless(fs: seq<Fragment>, j: nat, i: nat)
    requires i <= |fs| && Opens(fs, j, i)
    ensures Since(fs, i) <= j && !Headless(fs, i)
    decreases i
  {
    if j < i - 1 {
      assert fs[i - 1] == fs[j + 1..i][i - 1 - (j + 1)];
      assert fs[i - 1] in fs[j + 1..i];
      assert fs[j + 1..i - 1] == fs[j + 1..i][..i - 1 - (j + 1)];
      OpenedIsNotHeadless(fs, j, i - 1);
    }
    var k := Since(fs, i);
    assert fs[j] == fs[k..i][j - k];
    assert fs[j] in fs[k..i];
  }

  /** What the accumulator holds where it was last emptied. */
  lemma {:induction false} EmptySince(a: Assembly, fs: seq<Fragment>, i: nat)
    requires i <= |fs|
    ensures AcceptAll(a, fs[..Since(fs, i)]).acc == if Since(fs, i) == 0 then a.acc else []
    decreases i
  {
    if i == 0 {
      assert fs[..0] == [];
    } else if LastPiece(fs[i - 1]) {
      AcceptOne(a, fs, i - 1);
    } else {
      EmptySince(a, fs, i - 1);
    }
  }

  lemma AcceptOne(a: Assembly, fs: seq<Fragment>, i: nat)
    requires i < |fs|
    ensures AcceptAll(a, fs[..i + 1]) == Accept(AcceptAll(a, fs[..i]), fs[i])
  {
    assert fs[..i + 1] == fs[..i] + [fs[i]];
    AcceptAllConcat(a, fs[..i], [fs[i]]);
    assert [fs[i]][1..] == [];
  }

  /** Every fragment is one or the other: the pieces before it have a BEGIN, or they have none. */
  lemma HeadlessUnlessOpened(fs: seq<Fragment>, i: nat)
    requires i <= |fs|
    ensures Headless(fs, i) <==> forall j: nat :: !Opens(fs, j, i)
  {
    HeadlessOrOpened(fs, i);
    forall j: nat | Opens(fs, j, i) ensures !Headless(fs, i) {
      OpenedIsNotHeadless(fs, j, i);
    }
  }

  /** An END with a BEGIN before it delivers the message from that BEGIN on, on any stream. */
  lemma OpenedEnd(a: Assembly, fs: seq<Fragment>, j: nat, i: nat)
    requires i < |fs| && LastPiece(fs[i]) && Opens(fs, j, i)
    ensures AcceptAll(a, fs[..i + 1])
            == Assembly([], AcceptAll(a, fs[..i]).delivered + [fs[j].data + Joined(fs[j + 1..i]) + fs[i].data])
  {
    AcceptOne(a, fs, i);
    Slices(fs, j, i);
    assert fs[j..i] == [fs[j]] + fs[j + 1..i];
    AcceptAllConcat(a, fs[..j], fs[j..i]);
    OpenedRun(AcceptAll(a, fs[..j]), fs[j], fs[j + 1..i]);
  }

  /**
   An END without one delivers what nobody sent as a message: whatever the accumulator held
   at the start of the stream, if no END has emptied it, followed by all pieces since.
   */
  lemma HeadlessEnd(a: Assembly, fs: seq<Fragment>, i: nat)
    requires i < |fs| && LastPiece(fs[i]) && Headless(fs, i)
    ensures var k := Since(fs, i);
            AcceptAll(a, fs[..i + 1]) ==
            Assembly([], AcceptAll(a, fs[..i]).delivered +
                         [(if k == 0 then a.acc else []) + Joined(fs[k..i]) + fs[i].data])
  {
    var k := Since(fs, i);
    AcceptOne(a, fs, i);
    EmptySince(a, fs, i);
    Slices(fs, k, i);
    AcceptAllConcat(a, fs[..k], fs[k..i]);
    InteriorRun(AcceptAll(a, fs[..k]), fs[k..i]);
  }

  /**
   A lost BEGIN cannot be seen: an abandoned message followed by the rest of another one is
   delivered as a single message, the abandoned prefix and that rest.
   */
  lemma LostBeginMerges(a: Assembly, abandoned: Sent, s: Sent)
    requires WellFormed(abandoned) && WellFormed(s) && abandoned.Abandoned? && s.InMany?
    ensures var fs := Fragments(abandoned) + s.interior + [s.last];
            AcceptAll(a, fs).delivered == a.delivered + Unfragmented(abandoned.interior + s.interior) +
              [abandoned.first.data + Joined(abandoned.interior + s.interior) + s.last.data]
  {
    var merged := InMany(abandoned.first, abandoned.interior + s.interior, s.last);
    assert Fragments(merged) == Fragments(abandoned) + s.interior + [s.last];
    OneSentRun(a, merged);
    Reassociate(a.delivered, Unfragmented(merged.interior),
                [abandoned.first.data + Joined(merged.interior) + s.last.data]);
  }
}
