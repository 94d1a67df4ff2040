/** The durable object that keeps one mandate's budget at the edge: a bounded window of command ids against
    redelivery, and sums that are clamped at zero. */
module BudgetObject {
  import opened Domain

  datatype CommandKind = Reserve | Consume | Release

  /** What a request body may hold for the amount. */
  datatype Amount = NotANumber | NotAnInteger | Whole(cents: int)

  datatype Command = Command(id: string, kind: CommandKind, cents: int)

  datatype Budget = Budget(reservedCents: int, consumedCents: int, processedCommandIds: seq<string>)

  const EMPTY := Budget(0, 0, [])

  // ---- the object ----

  function LastOf<T>(s: seq<T>, n: nat): seq<T> {
    if |s| <= n then s else s[|s| - n..]
  }

  /** One command on the sums alone. */
  function Effect(b: Budget, c: Command): Budget {
    match c.kind
    case Reserve => b.(reservedCents := b.reservedCents + c.cents)
    case Consume => b.(reservedCents := Clamped(b.reservedCents - c.cents), consumedCents := b.consumedCents + c.cents)
    case Release => b.(reservedCents := Clamped(b.reservedCents - c.cents))
  }

  function Clamped(n: int): int { if n < 0 then 0 else n }

  function Apply(b: Budget, c: Command): Budget {
    if c.id in b.processedCommandIds then b
    else Effect(b, c).(processedCommandIds := LastOf(b.processedCommandIds, 99) + [c.id])
  }

  class MandateBudgetLock {
    var reservedCents: int
    var consumedCents: int
    var processedCommandIds: seq<string>

    function State(): Budget
      reads this
    {
      Budget(reservedCents, consumedCents, processedCommandIds)
    }

    constructor ()
      ensures State() == EMPTY
    {
      reservedCents, consumedCents, processedCommandIds := 0, 0, [];
    }

    /** None is the answer 400, and then nothing changes. */
    method ApplyBudgetCommand(kind: CommandKind, commandId: string, amount: Amount) returns (r: Option<Budget>)
      modifies this
      ensures r.None? <==> commandId == "" || !amount.Whole? || amount.cents <= 0
      ensures r.None? ==> State() == old(State())
      ensures r.Some? ==> r.value == State() == Apply(old(State()), Command(commandId, kind, amount.cents))
      ensures r.Some? && commandId in old(processedCommandIds) ==> State() == old(State())
      ensures r.Some? && commandId !in old(processedCommandIds) ==>
        && reservedCents == (if kind == Reserve then old(reservedCents) + amount.cents
                             else if amount.cents <= old(reservedCents) then old(reservedCents) - amount.cents else 0)
        && consumedCents == old(consumedCents) + (if kind == Consume then amount.cents else 0)
        && processedCommandIds == old(if |processedCommandIds| <= 99 then processedCommandIds
                                      else processedCommandIds[|processedCommandIds| - 99..]) + [commandId]
    {
      if commandId == "" || !amount.Whole? || amount.cents <= 0 {
        return None;
      }
      if commandId in processedCommandIds {
        return Some(State());
      }
      match kind {
        case Reserve =>
          reservedCents := reservedCents + amount.cents;
        case Consume =>
          reservedCents := if reservedCents - amount.cents < 0 then 0 else reservedCents - amount.cents;
          consumedCents := consumedCents + amount.cents;
        case Release =>
          reservedCents := if reservedCents - amount.cents < 0 then 0 else reservedCents - amount.cents;
      }
      var kept := if |processedCommandIds| <= 99 then processedCommandIds else processedCommandIds[|processedCommandIds| - 99..];
      processedCommandIds := kept + [commandId];
      return Some(State());
    }
  }

  // ---- whole histories ----

  /** The object after these commands, oldest first. */
  function After(cs: seq<Command>): Budget {
    if cs == [] then EMPTY else Apply(After(cs[..|cs| - 1]), cs[|cs| - 1])
  }

  /** The commands that took effect. */
  function Applied(cs: seq<Command>): seq<Command> {
    if cs == [] then []
    else
      var front, last := cs[..|cs| - 1], cs[|cs| - 1];
      if last.id in After(front).processedCommandIds then Applied(front) else Applied(front) + [last]
  }

  /** Every command but the repeats: what an object that never forgets would apply. */
  function WithoutRepeats(cs: seq<Command>): seq<Command> {
    if cs == [] then []
    else
      var front, last := cs[..|cs| - 1], cs[|cs| - 1];
      if last.id in IdsOf(WithoutRepeats(front)) then WithoutRepeats(front) else WithoutRepeats(front) + [last]
  }

  function IdsOf(cs: seq<Command>): (ids: seq<string>)
    ensures |ids| == |cs| && forall i :: 0 <= i < |cs| ==> ids[i] == cs[i].id
  {
    seq(|cs|, i requires 0 <= i < |cs| => cs[i].id)
  }

  /** The sums after a list of commands that all take effect. */
  function Sums(cs: seq<Command>): Budget {
    if cs == [] then EMPTY else Effect(Sums(cs[..|cs| - 1]), cs[|cs| - 1])
  }

  predicate NoDuplicates(ids: seq<string>) {
    forall i, j :: 0 <= i < j < |ids| ==> ids[i] != ids[j]
  }

  // ---- the window ----

  /** The window is the last hundred ids that took effect, without duplicates. */
  lemma {:induction false} WindowIsBounded(cs: seq<Command>)
    ensures After(cs).processedCommandIds == LastOf(IdsOf(Applied(cs)), 100)
    ensures |After(cs).processedCommandIds| <= 100 && NoDuplicates(After(cs).processedCommandIds)
  {
    if cs == [] {
    } else {
      var front, last := cs[..|cs| - 1], cs[|cs| - 1];
      WindowIsBounded(front);
      if last.id !in After(front).processedCommandIds {
        assert IdsOf(Applied(front) + [last]) == IdsOf(Applied(front)) + [last.id];
        SlideWindow(IdsOf(Applied(front)), last.id);
      }
    }
  }

  lemma SlideWindow(ids: seq<string>, id: string)
    requires NoDuplicates(LastOf(ids, 100)) && id !in LastOf(ids, 100)
    ensures LastOf(LastOf(ids, 100), 99) + [id] == LastOf(ids + [id], 100)
    ensures NoDuplicates(LastOf(ids + [id], 100))
  {
    WindowSlides(ids, id);
    OneMoreDifferent(LastOf(ids, 100), LastOf(LastOf(ids, 100), 99), id);
  }

  lemma WindowSlides(ids: seq<string>, id: string)
    ensures LastOf(LastOf(ids, 100), 99) + [id] == LastOf(ids + [id], 100)
  {
    if |ids| <= 99 {
      assert LastOf(LastOf(ids, 100), 99) == ids;
    } else {
      var n := |ids| - 99;
      assert LastOf(LastOf(ids, 100), 99) == ids[n..];
      assert (ids + [id])[n..] == ids[n..] + [id];
    }
  }

  lemma OneMoreDifferent(window: seq<string>, kept: seq<string>, id: string)
    requires NoDuplicates(window) && id !in window && |kept| <= |window| && kept == window[|window| - |kept|..]
    ensures NoDuplicates(kept + [id])
  {
    forall i, j | 0 <= i < j < |kept + [id]| ensures (kept + [id])[i] != (kept + [id])[j] {
      var shift := |window| - |kept|;
      assert (kept + [id])[i] == window[shift + i];
      if j < |kept| { assert (kept + [id])[j] == window[shift + j]; }
    }
  }

  lemma OneMoreSum(cs: seq<Command>, c: Command)
    ensures Sums(cs + [c]) == Effect(Sums(cs), c)
  {
    assert (cs + [c])[..|cs|] == cs;
  }

  ghost predicate SameSums(a: Budget, b: Budget) {
    a.reservedCents == b.reservedCents && a.consumedCents == b.consumedCents
  }

  lemma AppliedOneMore(cs: seq<Command>)
    requires cs != []
    ensures
      var front, last := cs[..|cs| - 1], cs[|cs| - 1];
      if last.id in After(front).processedCommandIds then After(cs) == After(front) && Applied(cs) == Applied(front)
      else SameSums(After(cs), Effect(After(front), last)) && Applied(cs) == Applied(front) + [last]
  {}

  /** The sums are those of the commands that took effect. */
  lemma {:induction false} SumsOfApplied(cs: seq<Command>)
    ensures SameSums(After(cs), Sums(Applied(cs)))
  {
    if cs == [] {
    } else {
      AppliedOneMore(cs);
      SumsOfApplied(cs[..|cs| - 1]);
      OneMoreSum(Applied(cs[..|cs| - 1]), cs[|cs| - 1]);
    }
  }

  // ---- against an object that never forgets ----

  /** At most 99 other ids came into use after `id` did. */
  predicate Recent(used: seq<string>, id: string) {
    exists i :: 0 <= i < |used| && used[i] == id && |used| - 1 - i <= 99
  }

  /** Command `j`, if it is a repeat, comes while its id is recent. */
  predicate InTime(cs: seq<Command>, j: nat)
    requires j < |cs|
  {
    var used := IdsOf(WithoutRepeats(cs[..j]));
    cs[j].id in used ==> Recent(used, cs[j].id)
  }

  /** Every repeat comes in time: at most 99 fresh ids since the first use of its id. */
  predicate WellSpaced(cs: seq<Command>) {
    forall j :: 0 <= j < |cs| ==> InTime(cs, j)
  }

  lemma RecentIsInWindow(used: seq<string>, id: string)
    ensures Recent(used, id) <==> id in LastOf(used, 100)
  {
    var window := LastOf(used, 100);
    if Recent(used, id) {
      var i :| 0 <= i < |used| && used[i] == id && |used| - 1 - i <= 99;
      assert window[i - (|used| - |window|)] == id;
    }
    if id in window {
      var k :| 0 <= k < |window| && window[k] == id;
      assert used[k + |used| - |window|] == id;
    }
  }

  lemma InTimeInFront(cs: seq<Command>, j: nat)
    requires j < |cs| - 1
    ensures InTime(cs[..|cs| - 1], j) <==> InTime(cs, j)
  {
    assert cs[..|cs| - 1][..j] == cs[..j];
  }

  lemma WellSpacedFront(cs: seq<Command>)
    requires cs != []
    ensures WellSpaced(cs) <==> WellSpaced(cs[..|cs| - 1]) && InTime(cs, |cs| - 1)
  {
    var front := cs[..|cs| - 1];
    forall j | 0 <= j < |front| ensures InTime(front, j) <==> InTime(cs, j) { InTimeInFront(cs, j); }
    if WellSpaced(cs) {
      forall j | 0 <= j < |front| ensures InTime(front, j) { assert InTime(cs, j); }
    }
    if WellSpaced(front) && InTime(cs, |cs| - 1) {
      forall j | 0 <= j < |cs| ensures InTime(cs, j) {
        if j < |front| { assert InTime(front, j); }
      }
    }
  }

  lemma {:induction false} WithoutRepeatsHasNone(cs: seq<Command>)
    ensures NoDuplicates(IdsOf(WithoutRepeats(cs)))
  {
    if cs == [] {
    } else {
      WithoutRepeatsHasNone(cs[..|cs| - 1]);
    }
  }

  /** The bounded window has the same effect as never forgetting, exactly for the well-spaced histories. */
  lemma {:induction false} WindowRefinesUnboundedMemory(cs: seq<Command>)
    ensures Applied(cs) == WithoutRepeats(cs) <==> WellSpaced(cs)
    ensures !WellSpaced(cs) ==> !NoDuplicates(IdsOf(Applied(cs)))
  {
    if cs == [] {
    } else {
      var front, last := cs[..|cs| - 1], cs[|cs| - 1];
      var used := IdsOf(WithoutRepeats(front));
      WindowRefinesUnboundedMemory(front);
      WellSpacedFront(cs);
      WindowIsBounded(front);
      WithoutRepeatsHasNone(cs);
      if WellSpaced(front) {
        RecentIsInWindow(used, last.id);
        if last.id in used && !Recent(used, last.id) {
          RepeatsAnId(Applied(front), last);
        }
      } else if last.id !in After(front).processedCommandIds {
        StillDuplicated(Applied(front), last);
      }
    }
  }

  lemma RepeatsAnId(cs: seq<Command>, c: Command)
    requires c.id in IdsOf(cs)
    ensures !NoDuplicates(IdsOf(cs + [c]))
  {
    var i :| 0 <= i < |cs| && IdsOf(cs)[i] == c.id;
    assert IdsOf(cs + [c])[i] == IdsOf(cs + [c])[|cs|];
  }

  lemma StillDuplicated(cs: seq<Command>, c: Command)
    requires !NoDuplicates(IdsOf(cs))
    ensures !NoDuplicates(IdsOf(cs + [c]))
  {
    var i, j :| 0 <= i < j < |cs| && IdsOf(cs)[i] == IdsOf(cs)[j];
    assert IdsOf(cs + [c])[i] == IdsOf(cs + [c])[j];
  }

  /** For a well-spaced history the final budget is the fold over the history with repeats removed. */
  lemma FinalBudgetIgnoresRepeats(cs: seq<Command>)
    requires WellSpaced(cs)
    ensures SameSums(After(cs), Sums(WithoutRepeats(cs)))
  {
    WindowRefinesUnboundedMemory(cs);
    SumsOfApplied(cs);
  }

  // ---- a repeat that comes too late ----

  lemma LastIsNew(cs: seq<Command>)
    requires cs != [] && NoDuplicates(IdsOf(cs))
    ensures NoDuplicates(IdsOf(cs[..|cs| - 1])) && cs[|cs| - 1].id !in IdsOf(cs[..|cs| - 1])
  {
    var front := cs[..|cs| - 1];
    forall i | 0 <= i < |front| ensures IdsOf(front)[i] != cs[|cs| - 1].id && IdsOf(front)[i] == IdsOf(cs)[i] {
      assert IdsOf(cs)[i] != IdsOf(cs)[|cs| - 1];
    }
  }

  lemma NewIdIsNotInWindow(cs: seq<Command>, id: string)
    requires Applied(cs) == cs && id !in IdsOf(cs)
    ensures id !in After(cs).processedCommandIds
  {
    WindowIsBounded(cs);
    assert forall i :: 0 <= i < |LastOf(IdsOf(cs), 100)| ==> LastOf(IdsOf(cs), 100)[i] in IdsOf(cs);
  }

  /** A command with a new id takes effect after commands that all did. */
  lemma OneMoreNew(front: seq<Command>, last: Command, cs: seq<Command>)
    requires Applied(front) == front && WithoutRepeats(front) == front && last.id !in IdsOf(front) && cs == front + [last]
    ensures Applied(cs) == cs && WithoutRepeats(cs) == cs
  {
    assert cs[..|cs| - 1] == front && cs[|cs| - 1] == last;
    NewIdIsNotInWindow(front, last.id);
  }

  lemma {:induction false} AllDifferentAllApplied(cs: seq<Command>)
    requires NoDuplicates(IdsOf(cs))
    ensures Applied(cs) == cs && WithoutRepeats(cs) == cs
  {
    if cs == [] {
    } else {
      LastIsNew(cs);
      AllDifferentAllApplied(cs[..|cs| - 1]);
      OneMoreNew(cs[..|cs| - 1], cs[|cs| - 1], cs);
    }
  }

  /** After a hundred other ids a redelivered reservation counts twice. */
  lemma LateRepeatCountsTwice(first: Command, others: seq<Command>)
    requires first.kind == Reserve && |others| >= 100 && NoDuplicates(IdsOf([first] + others))
    ensures
      var cs := [first] + others + [first];
      && !WellSpaced(cs) && WithoutRepeats(cs) == [first] + others
      && After(cs).reservedCents == Sums(WithoutRepeats(cs)).reservedCents + first.cents
  {
    var once, cs := [first] + others, [first] + others + [first];
    assert cs[..|cs| - 1] == once;
    AllDifferentAllApplied(once);
    WindowIsBounded(once);
    assert IdsOf(once)[0] == first.id;
    forall i | 0 < i < |once| ensures IdsOf(once)[i] != first.id { assert IdsOf(once)[0] != IdsOf(once)[i]; }
    assert first.id !in LastOf(IdsOf(once), 100);
    SumsOfApplied(once);
    RecentIsInWindow(IdsOf(once), first.id);
    WellSpacedFront(cs);
  }

  function Nth(n: nat): string { seq(n + 1, _ => 'c') }

  /** Such a history exists. */
  lemma SomeRepeatIsTooLate()
    ensures exists cs :: !WellSpaced(cs) && After(cs).reservedCents != Sums(WithoutRepeats(cs)).reservedCents
  {
    var others := seq(100, i requires 0 <= i < 100 => Command(Nth(i + 1), Reserve, 1));
    var first := Command(Nth(0), Reserve, 1);
    var ids := IdsOf([first] + others);
    assert forall i :: 0 <= i < |ids| ==> |ids[i]| == i + 1;
    LateRepeatCountsTwice(first, others);
  }

  // ---- the clamp ----

  /** What the commands put in less what they take out. */
  function Net(cs: seq<Command>): int {
    if cs == [] then 0
    else Net(cs[..|cs| - 1]) + if cs[|cs| - 1].kind == Reserve then cs[|cs| - 1].cents else -cs[|cs| - 1].cents
  }

  /** The lowest the running net ever was, the start included. */
  function Lowest(cs: seq<Command>): (low: int)
    ensures low <= 0 && low <= Net(cs)
  {
    if cs == [] then 0
    else
      var low := Lowest(cs[..|cs| - 1]);
      if Net(cs) < low then Net(cs) else low
  }

  function Consumed(cs: seq<Command>): int {
    if cs == [] then 0
    else Consumed(cs[..|cs| - 1]) + if cs[|cs| - 1].kind == Consume then cs[|cs| - 1].cents else 0
  }

  /** It is a lower bound of the nets of all prefixes, and one of them. */
  lemma {:induction false} LowestIsTheMinimum(cs: seq<Command>)
    ensures forall k :: 0 <= k <= |cs| ==> Lowest(cs) <= Net(cs[..k])
    ensures exists k :: 0 <= k <= |cs| && Lowest(cs) == Net(cs[..k])
  {
    assert cs[..|cs|] == cs;
    if cs == [] {
    } else {
      var front := cs[..|cs| - 1];
      LowestIsTheMinimum(front);
      assert forall k :: 0 <= k <= |front| ==> front[..k] == cs[..k];
      var k :| 0 <= k <= |front| && Lowest(front) == Net(front[..k]);
      assert Lowest(cs) == Net(cs[..k]) || Lowest(cs) == Net(cs[..|cs|]);
    }
  }

  /** The clamped running sum in closed form. */
  lemma {:induction false} ClampedSumIsNetLessLowest(cs: seq<Command>)
    requires forall c :: c in cs ==> c.cents > 0
    ensures Sums(cs).reservedCents == Net(cs) - Lowest(cs)
    ensures Sums(cs).consumedCents == Consumed(cs)
  {
    if cs == [] {
    } else {
      ClampedSumIsNetLessLowest(cs[..|cs| - 1]);
      assert cs[|cs| - 1] in cs;
    }
  }

  /** Nothing is lost or made up by the clamp exactly when no prefix takes out more than was put in. */
  lemma ConservedIffNeverOverdrawn(cs: seq<Command>)
    requires forall c :: c in cs ==> c.cents > 0
    ensures Sums(cs).reservedCents == Net(cs) <==> forall k :: 0 <= k <= |cs| ==> Net(cs[..k]) >= 0
  {
    ClampedSumIsNetLessLowest(cs);
    LowestIsTheMinimum(cs);
  }

  /** The same for the object itself: after any history of valid commands. */
  lemma ObjectIsNetLessLowest(cs: seq<Command>)
    requires forall c :: c in cs ==> c.cents > 0
    ensures After(cs).reservedCents == Net(Applied(cs)) - Lowest(Applied(cs)) >= 0
    ensures After(cs).consumedCents == Consumed(Applied(cs))
  {
    AppliedAreSome(cs);
    SumsOfApplied(cs);
    ClampedSumIsNetLessLowest(Applied(cs));
  }

  lemma {:induction false} AppliedAreSome(cs: seq<Command>)
    ensures forall c :: c in Applied(cs) ==> c in cs
  {
    if cs == [] {
    } else {
      AppliedAreSome(cs[..|cs| - 1]);
      assert cs == cs[..|cs| - 1] + [cs[|cs| - 1]];
    }
  }
}
