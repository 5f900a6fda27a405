/** Token usage arithmetic: 64-bit counts that wrap, and service tiers that merge. */
module Usage {
  import opened Options

  const TWO_TO_THE_63: int := 0x8000_0000_0000_0000
  const TWO_TO_THE_64: int := 0x1_0000_0000_0000_0000

  type Int64 = x: int | -TWO_TO_THE_63 <= x < TWO_TO_THE_63

  /** Two's-complement wrap-around. */
  function Wrap(x: int): Int64 {
    (x + TWO_TO_THE_63) % TWO_TO_THE_64 - TWO_TO_THE_63
  }

  /** Sixty-four bits: the largest number stays as it is, and the next one is the smallest. */
  lemma WrapsAt64Bits()
    ensures Wrap(9223372036854775807) == 9223372036854775807
    ensures Wrap(9223372036854775807 + 1) == -9223372036854775808
  {
  }

  datatype Counts = Counts(prompt: Int64, cached: Int64, candidates: Int64, thoughts: Int64, total: Int64)

  datatype UsageMetadata = UsageMetadata(counts: Counts, tier: string)

  const STANDARD := "standard"
  const ZERO := Counts(0, 0, 0, 0, 0)
  const UNUSED := UsageMetadata(ZERO, "")

  function AddCounts(a: Counts, b: Counts): Counts {
    Counts(Wrap(a.prompt + b.prompt), Wrap(a.cached + b.cached), Wrap(a.candidates + b.candidates),
           Wrap(a.thoughts + b.thoughts), Wrap(a.total + b.total))
  }

  function SubCounts(a: Counts, b: Counts): Counts {
    Counts(Wrap(a.prompt - b.prompt), Wrap(a.cached - b.cached), Wrap(a.candidates - b.candidates),
           Wrap(a.thoughts - b.thoughts), Wrap(a.total - b.total))
  }

  function MergeTiers(a: string, b: string): string {
    if a == b then a
    else if a == "" then b
    else if b == "" then a
    else STANDARD
  }

  function Add(u: UsageMetadata, v: UsageMetadata): UsageMetadata {
    UsageMetadata(AddCounts(u.counts, v.counts), MergeTiers(u.tier, v.tier))
  }

  function Sub(u: UsageMetadata, v: UsageMetadata): UsageMetadata {
    UsageMetadata(SubCounts(u.counts, v.counts), if u.tier == "" then v.tier else u.tier)
  }

  // ----- wrapping arithmetic -------------------------------------------------------------

  /** Wrapping keeps a number up to multiples of two to the 64th, and only those are lost. */
  lemma WrapCongruent(x: int, k: int)
    ensures Wrap(x + k * TWO_TO_THE_64) == Wrap(x)
  {
    var y := x + TWO_TO_THE_63;
    var q, r := y / TWO_TO_THE_64, y % TWO_TO_THE_64;
    assert y + k * TWO_TO_THE_64 == (q + k) * TWO_TO_THE_64 + r;
    Remainder(y + k * TWO_TO_THE_64, q + k, r);
  }

  lemma Remainder(y: int, q: int, r: int)
    requires y == q * TWO_TO_THE_64 + r && 0 <= r < TWO_TO_THE_64
    ensures y % TWO_TO_THE_64 == r
  {
  }

  lemma WrapOf(x: int) returns (k: int)
    ensures Wrap(x) == x + k * TWO_TO_THE_64
  {
    k := -((x + TWO_TO_THE_63) / TWO_TO_THE_64);
  }

  lemma WrapInner(x: int, y: int)
    ensures Wrap(Wrap(x) + y) == Wrap(x + y)
    ensures Wrap(Wrap(x) - y) == Wrap(x - y)
    ensures Wrap(y - Wrap(x)) == Wrap(y - x)
  {
    var k := WrapOf(x);
    WrapCongruent(x + y, k);
    WrapCongruent(x - y, k);
    WrapCongruent(y - x, -k);
    assert y - Wrap(x) == y - x + -k * TWO_TO_THE_64;
  }

  lemma WrapFits(x: Int64)
    ensures Wrap(x) == x
  {
  }

  // ----- totals do not depend on order ---------------------------------------------------

  lemma CountsCommute(a: Counts, b: Counts)
    ensures AddCounts(a, b) == AddCounts(b, a)
  {
  }

  lemma CountsAssociate(a: Counts, b: Counts, c: Counts)
    ensures AddCounts(AddCounts(a, b), c) == AddCounts(a, AddCounts(b, c))
  {
    hide Wrap;
    WrapAssociates(a.prompt, b.prompt, c.prompt);
    WrapAssociates(a.cached, b.cached, c.cached);
    WrapAssociates(a.candidates, b.candidates, c.candidates);
    WrapAssociates(a.thoughts, b.thoughts, c.thoughts);
    WrapAssociates(a.total, b.total, c.total);
  }

  lemma WrapAssociates(x: int, y: int, z: int)
    ensures Wrap(Wrap(x + y) + z) == Wrap(x + Wrap(y + z))
  {
    hide Wrap;
    WrapInner(x + y, z);
    WrapInner(y + z, x);
    assert x + Wrap(y + z) == Wrap(y + z) + x && x + y + z == y + z + x;
  }

  /** Service tiers form a join-semilattice with the unset tier at the bottom and the standard
    * tier at the top. */
  lemma TiersJoin(a: string, b: string, c: string)
    ensures MergeTiers(a, b) == MergeTiers(b, a)
    ensures MergeTiers(MergeTiers(a, b), c) == MergeTiers(a, MergeTiers(b, c))
    ensures MergeTiers(a, a) == a && MergeTiers("", a) == a && MergeTiers(a, "standard") == "standard"
    ensures a != b && a != "" && b != "" ==> MergeTiers(a, b) == "standard"
  {
  }

  lemma AddCommutes(u: UsageMetadata, v: UsageMetadata)
    ensures Add(u, v) == Add(v, u)
  {
    CountsCommute(u.counts, v.counts);
  }

  lemma AddAssociates(u: UsageMetadata, v: UsageMetadata, w: UsageMetadata)
    ensures Add(Add(u, v), w) == Add(u, Add(v, w))
  {
    hide AddCounts, MergeTiers;
    CountsAssociate(u.counts, v.counts, w.counts);
    TiersJoin(u.tier, v.tier, w.tier);
  }

  function Total(us: seq<UsageMetadata>): UsageMetadata {
    if us == [] then UNUSED else Add(us[0], Total(us[1..]))
  }

  lemma {:induction false} TotalMoves(us: seq<UsageMetadata>, u: UsageMetadata, vs: seq<UsageMetadata>)
    ensures Total(us + [u] + vs) == Add(u, Total(us + vs))
  {
    hide Add;
    if us == [] {
      assert [] + [u] + vs == [u] + vs && [] + vs == vs && ([u] + vs)[1..] == vs;
    } else {
      TotalMoves(us[1..], u, vs);
      assert (us + [u] + vs)[1..] == us[1..] + [u] + vs && (us + vs)[1..] == us[1..] + vs;
      var rest := Total(us[1..] + vs);
      AddAssociates(us[0], u, rest);
      AddCommutes(us[0], u);
      AddAssociates(u, us[0], rest);
    }
  }

  /** A total does not depend on the order in which usage arrives. */
  lemma {:induction false} TotalPermutes(us: seq<UsageMetadata>, vs: seq<UsageMetadata>)
    requires multiset(us) == multiset(vs)
    ensures Total(us) == Total(vs)
  {
    hide Add;
    if us == [] {
      assert |multiset(vs)| == 0;
    } else {
      var u := us[0];
      assert us == [u] + us[1..];
      assert u in multiset(vs);
      var k :| 0 <= k < |vs| && vs[k] == u;
      var rest := vs[..k] + vs[k + 1..];
      assert vs == vs[..k] + [u] + vs[k + 1..];
      assert multiset(us[1..]) == multiset(us) - multiset{u} == multiset(rest);
      TotalPermutes(us[1..], rest);
      TotalMoves(vs[..k], u, vs[k + 1..]);
    }
  }

  // ----- differences of snapshots --------------------------------------------------------

  lemma SubInvertsWrap(x: Int64, y: Int64)
    ensures Wrap(Wrap(x + y) - y) == x
    ensures Wrap(y + Wrap(x - y)) == x
  {
    WrapInner(x + y, y);
    WrapInner(x - y, y);
    WrapFits(x);
    assert y + Wrap(x - y) == Wrap(x - y) + y;
  }

  /** Subtracting undoes adding, wrap-around included, and adding the difference of two
    * snapshots to the first gives the second. */
  lemma SubInvertsAdd(a: Counts, b: Counts)
    ensures SubCounts(AddCounts(a, b), b) == a
    ensures AddCounts(b, SubCounts(a, b)) == a
  {
    hide Wrap;
    SubInvertsWrap(a.prompt, b.prompt);
    SubInvertsWrap(a.cached, b.cached);
    SubInvertsWrap(a.candidates, b.candidates);
    SubInvertsWrap(a.thoughts, b.thoughts);
    SubInvertsWrap(a.total, b.total);
  }

  /** Subtracting also restores the tier exactly when the merge had not changed it. */
  lemma SubRestoresIff(u: UsageMetadata, v: UsageMetadata)
    ensures Sub(Add(u, v), v) == u <==> MergeTiers(u.tier, v.tier) == u.tier
  {
    hide AddCounts, SubCounts;
    SubInvertsAdd(u.counts, v.counts);
  }

  /** The cumulative readings of a session's turns: before the first step and at the end. */
  datatype Turn = Turn(before: UsageMetadata, after: UsageMetadata) {
    function Spent(): UsageMetadata { Sub(after, before) }
  }

  /** A turn whose starting point was cleared midway reports the whole cumulative total. */
  lemma ClearedMidTurn(after: UsageMetadata)
    ensures Turn(UNUSED, after).Spent() == after
  {
    WrapFits(after.counts.prompt);
    WrapFits(after.counts.cached);
    WrapFits(after.counts.candidates);
    WrapFits(after.counts.thoughts);
    WrapFits(after.counts.total);
  }

  /** A figure taken against another start than the turn's own is right all the same exactly when
    * the two starts have the same counts, and the same tier if the turn ends with none. */
  lemma StartReplacedIff(next: UsageMetadata, before: UsageMetadata, after: UsageMetadata)
    ensures Turn(next, after).Spent() == Turn(before, after).Spent() <==>
      next.counts == before.counts && (after.tier == "" ==> next.tier == before.tier)
  {
    var a, b, c := after.counts, before.counts, next.counts;
    SubCancels(a.prompt, b.prompt, c.prompt);
    SubCancels(a.cached, b.cached, c.cached);
    SubCancels(a.candidates, b.candidates, c.candidates);
    SubCancels(a.thoughts, b.thoughts, c.thoughts);
    SubCancels(a.total, b.total, c.total);
    hide Wrap;
  }

  lemma SubCancels(x: Int64, y: Int64, z: Int64)
    ensures Wrap(x - y) == Wrap(x - z) <==> y == z
  {
    WrapInner(x - y, x);
    WrapInner(x - z, x);
    WrapFits(y);
    WrapFits(z);
    assert x - (x - y) == y && x - (x - z) == z;
    hide Wrap;
  }

  /** So a turn during which history was cleared is reported right exactly when nothing had been
    * spent before it, and no service tier known before it that is not known after. */
  lemma ClearedMidTurnIff(before: UsageMetadata, after: UsageMetadata)
    ensures Turn(UNUSED, after).Spent() == Turn(before, after).Spent() <==>
      before.counts == ZERO && (after.tier == "" ==> before.tier == "")
  {
    StartReplacedIff(UNUSED, before, after);
    hide Wrap;
  }

  /** What the turns spent, as the per-turn figures report it. */
  function Spending(turns: seq<Turn>): Counts {
    if turns == [] then ZERO
    else AddCounts(Spending(turns[..|turns| - 1]), turns[|turns| - 1].Spent().counts)
  }

  /** What was spent outside turns: between one turn's end and the next one's start. */
  function Gaps(start: Counts, turns: seq<Turn>): Counts {
    if turns == [] then ZERO
    else
      var before := turns[..|turns| - 1];
      AddCounts(Gaps(start, before), SubCounts(turns[|turns| - 1].before.counts, Reading(start, before)))
  }

  function Reading(start: Counts, turns: seq<Turn>): Counts {
    if turns == [] then start else turns[|turns| - 1].after.counts
  }

  /** The per-turn figures and the gaps between turns add up to the cumulative total. */
  lemma {:induction false} TurnsTelescope(start: Counts, turns: seq<Turn>)
    ensures AddCounts(start, AddCounts(Spending(turns), Gaps(start, turns))) == Reading(start, turns)
  {
    hide AddCounts, SubCounts;
    if turns == [] {
      ZeroAdds(ZERO);
      ZeroAdds(start);
      CountsCommute(start, ZERO);
    } else {
      var before, turn := turns[..|turns| - 1], turns[|turns| - 1];
      TurnsTelescope(start, before);
      Regroup(start, Spending(before), turn.Spent().counts, Gaps(start, before),
              SubCounts(turn.before.counts, Reading(start, before)));
      SubInvertsAdd(turn.before.counts, Reading(start, before));
      SubInvertsAdd(turn.after.counts, turn.before.counts);
    }
  }

  lemma ZeroAdds(a: Counts)
    ensures AddCounts(ZERO, a) == a
  {
  }

  lemma Regroup(start: Counts, s: Counts, ds: Counts, g: Counts, dg: Counts)
    ensures AddCounts(start, AddCounts(AddCounts(s, ds), AddCounts(g, dg))) ==
      AddCounts(AddCounts(AddCounts(start, AddCounts(s, g)), dg), ds)
  {
    hide AddCounts;
    CountsCommute(s, ds);
    CountsAssociate(ds, s, AddCounts(g, dg));
    CountsAssociate(s, g, dg);
    var sg := AddCounts(s, g);
    CountsCommute(ds, AddCounts(sg, dg));
    CountsAssociate(start, AddCounts(sg, dg), ds);
    CountsAssociate(start, sg, dg);
  }

  // ----- the figures of a run ------------------------------------------------------------

  /** What a conversation keeps of its usage: the reading when the turn was sent, and the figure of the
    * last turn. */
  datatype Meter = Meter(start: UsageMetadata, last: Option<UsageMetadata>)

  /** A turn is sent, or is read to its end, at some cumulative reading; or history is cleared. */
  datatype Mark = Sent(reading: UsageMetadata) | Finished(reading: UsageMetadata) | Cleared

  const NEW_METER := Meter(UNUSED, None)

  function Marked(m: Meter, mark: Mark): Meter {
    match mark
    case Sent(reading) => Meter(reading, None)
    case Finished(reading) => Meter(m.start, Some(Sub(reading, m.start)))
    case Cleared => NEW_METER
  }

  function MarkedAll(marks: seq<Mark>): Meter {
    if marks == [] then NEW_METER else Marked(MarkedAll(marks[..|marks| - 1]), marks[|marks| - 1])
  }

  /** The sum of the figures the conversation reports, one as each turn finishes. */
  function Reported(marks: seq<Mark>): Counts {
    if marks == [] then ZERO
    else
      var before, n := Reported(marks[..|marks| - 1]), |marks| - 1;
      if marks[n].Finished? then AddCounts(before, MarkedAll(marks).last.value.counts) else before
  }

  /** The reading that the next figure is taken against. */
  function StartInForce(marks: seq<Mark>): UsageMetadata {
    if marks == [] then UNUSED
    else
      match marks[|marks| - 1]
      case Sent(reading) => reading
      case Finished(_) => StartInForce(marks[..|marks| - 1])
      case Cleared => UNUSED
  }

  lemma {:induction false} MeterStart(marks: seq<Mark>)
    ensures MarkedAll(marks).start == StartInForce(marks)
  {
    hide Sub;
    if marks != [] { MeterStart(marks[..|marks| - 1]); }
  }

  /** The pairs of readings that the figures are taken of. */
  function Figures(marks: seq<Mark>): seq<Turn> {
    if marks == [] then []
    else
      var n := |marks| - 1;
      if marks[n].Finished? then Figures(marks[..n]) + [Turn(StartInForce(marks[..n]), marks[n].reading)]
      else Figures(marks[..n])
  }

  /** Whatever is sent, finished and cleared in whatever order, the figures reported are what was spent
    * between the start then in force and the end. */
  lemma {:induction false} ReportsTurns(marks: seq<Mark>)
    ensures Reported(marks) == Spending(Figures(marks))
  {
    hide AddCounts, SubCounts;
    if marks != [] {
      var n := |marks| - 1;
      ReportsTurns(marks[..n]);
      if marks[n].Finished? {
        MeterStart(marks[..n]);
        var figures := Figures(marks);
        assert figures[..|figures| - 1] == Figures(marks[..n]);
        assert MarkedAll(marks).last == Some(figures[|figures| - 1].Spent());
      }
    }
  }

  /** Over any run the figures reported, and the gaps from each end to the start that the next figure
    * is taken against, add up to the cumulative total last read. */
  lemma RunTelescopes(start: Counts, marks: seq<Mark>)
    ensures AddCounts(start, AddCounts(Reported(marks), Gaps(start, Figures(marks)))) ==
      Reading(start, Figures(marks))
  {
    hide *;
    ReportsTurns(marks);
    TurnsTelescope(start, Figures(marks));
  }

  /** A run that clears history during a turn reports the cumulative total as that turn's figure. */
  lemma RunClearedMidTurn(marks: seq<Mark>, before: UsageMetadata, after: UsageMetadata)
    ensures MarkedAll(marks + [Sent(before)] + [Cleared] + [Finished(after)]).last == Some(after)
  {
    var cleared := marks + [Sent(before)] + [Cleared];
    var all := cleared + [Finished(after)];
    assert all[..|all| - 1] == cleared && cleared[|cleared| - 1] == Cleared;
    ClearedMidTurn(after);
  }
}
