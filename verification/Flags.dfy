/** The lifecycle of feature flags: deadlines are ISO dates compared as strings. */
module Flags {
  import opened Prelude
  import opened KstTime
  import opened IsoDate

  datatype Lifecycle = Permanent | Temporary(removeBy: string)

  datatype FlagSpec = FlagSpec(name: string, lifecycle: Lifecycle)

  datatype ExpiredFlag = ExpiredFlag(name: string, removeBy: string)

  datatype DateError = NotACalendarDate(value: string)

  /** `temporary`: a malformed deadline never becomes a lifecycle. */
  function DeclareTemporary(removeBy: string): Result<Lifecycle, DateError> {
    if !IsIsoCalendarDate(removeBy) then Err(NotACalendarDate(removeBy)) else Ok(Temporary(removeBy))
  }

  /** Every deadline names a day. */
  ghost predicate Declared(specs: seq<FlagSpec>) {
    forall i :: 0 <= i < |specs| ==> specs[i].lifecycle.Temporary? ==> IsIsoCalendarDate(specs[i].lifecycle.removeBy)
  }

  predicate Overdue(spec: FlagSpec, today: string) {
    spec.lifecycle.Temporary? && StringLess(spec.lifecycle.removeBy, today)
  }

  function CollectOverdue(specs: seq<FlagSpec>, today: string): seq<ExpiredFlag> {
    if specs == [] then [] else
      (if Overdue(specs[0], today) then [ExpiredFlag(specs[0].name, specs[0].lifecycle.removeBy)] else [])
      + CollectOverdue(specs[1..], today)
  }

  function ExpiredFlags(specs: seq<FlagSpec>, today: string): Result<seq<ExpiredFlag>, DateError> {
    if !IsIsoCalendarDate(today) then Err(NotACalendarDate(today)) else Ok(CollectOverdue(specs, today))
  }

  /** A temporary flag is reported iff today's day number exceeds its deadline's. */
  lemma ReportedIffPastItsDay(specs: seq<FlagSpec>, now: Instant, flag: ExpiredFlag)
    requires Declared(specs) && FourDigitYear(KstDay(now))
    ensures ExpiredFlags(specs, KstCalendarDate(now)).Ok?
    ensures flag in ExpiredFlags(specs, KstCalendarDate(now)).value <==>
            (exists i :: 0 <= i < |specs| && specs[i] == FlagSpec(flag.name, Temporary(flag.removeBy))
                         && DayNumber(Parse(flag.removeBy)) < KstDay(now))
  {
    var today := KstCalendarDate(now);
    CalendarDateNamesItsDay(now);
    CollectedIffOverdue(specs, today, flag);
    forall i | 0 <= i < |specs| && specs[i] == FlagSpec(flag.name, Temporary(flag.removeBy))
      ensures Overdue(specs[i], today) <==> DayNumber(Parse(flag.removeBy)) < KstDay(now)
    {
      LexicographicIsChronological(flag.removeBy, today);
    }
  }

  ghost predicate MadeByTemporary(lifecycle: Lifecycle) {
    exists removeBy: string :: DeclareTemporary(removeBy) == Ok(lifecycle)
  }

  /** Temporary lifecycles are never written out: each is a value of `DeclareTemporary`. */
  ghost predicate BuiltThroughTemporary(specs: seq<FlagSpec>) {
    forall i :: 0 <= i < |specs| && specs[i].lifecycle.Temporary? ==> MadeByTemporary(specs[i].lifecycle)
  }

  /**
   What refusing malformed deadlines is for: exactly the registries built through `DeclareTemporary` have only
   real days as deadlines, and on them the report, on any day of a four-digit year, is exactly the flags past
   their day.
   */
  lemma BuiltRegistriesReport(specs: seq<FlagSpec>, now: Instant, flag: ExpiredFlag)
    requires FourDigitYear(KstDay(now))
    ensures BuiltThroughTemporary(specs) <==> Declared(specs)
    ensures BuiltThroughTemporary(specs) ==>
              && ExpiredFlags(specs, KstCalendarDate(now)).Ok?
              && (flag in ExpiredFlags(specs, KstCalendarDate(now)).value <==>
                  exists i :: 0 <= i < |specs| && specs[i] == FlagSpec(flag.name, Temporary(flag.removeBy))
                              && DayNumber(Parse(flag.removeBy)) < KstDay(now))
  {
    hide IsIsoCalendarDate, KstCalendarDate, DayNumber, Parse, FourDigitYear, ExpiredFlags;
    forall i | 0 <= i < |specs| && specs[i].lifecycle.Temporary?
      ensures MadeByTemporary(specs[i].lifecycle) <==> IsIsoCalendarDate(specs[i].lifecycle.removeBy)
    {
      if IsIsoCalendarDate(specs[i].lifecycle.removeBy) {
        assert DeclareTemporary(specs[i].lifecycle.removeBy) == Ok(specs[i].lifecycle);
      }
    }
    if BuiltThroughTemporary(specs) {
      ReportedIffPastItsDay(specs, now, flag);
    }
  }

  lemma {:induction false} CollectedIffOverdue(specs: seq<FlagSpec>, today: string, flag: ExpiredFlag)
    ensures flag in CollectOverdue(specs, today) <==>
            exists i :: 0 <= i < |specs| && specs[i] == FlagSpec(flag.name, Temporary(flag.removeBy))
                        && Overdue(specs[i], today)
  {
    if specs != [] {
      CollectedIffOverdue(specs[1..], today, flag);
      assert forall i :: 1 <= i < |specs| ==> specs[i] == specs[1..][i - 1];
      if exists i :: 0 <= i < |specs[1..]| && specs[1..][i] == FlagSpec(flag.name, Temporary(flag.removeBy))
                     && Overdue(specs[1..][i], today) {
        var i :| 0 <= i < |specs[1..]| && specs[1..][i] == FlagSpec(flag.name, Temporary(flag.removeBy))
                 && Overdue(specs[1..][i], today);
        assert specs[i + 1] == specs[1..][i];
      }
    }
  }

  /** Reported flags keep declaration order, one report per overdue entry. */
  lemma {:induction false} DeclarationOrderKept(before: seq<FlagSpec>, after: seq<FlagSpec>, today: string)
    ensures CollectOverdue(before + after, today) == CollectOverdue(before, today) + CollectOverdue(after, today)
  {
    hide Overdue;
    if before == [] {
      assert before + after == after;
    } else {
      assert (before + after)[1..] == before[1..] + after;
      DeclarationOrderKept(before[1..], after, today);
    }
  }

  /** What one flag reports. */
  ghost predicate Reports(report: ExpiredFlag, spec: FlagSpec) {
    spec == FlagSpec(report.name, Temporary(report.removeBy))
  }

  lemma {:induction false} OverdueEntries(specs: seq<FlagSpec>, today: string) returns (at: seq<nat>)
    ensures |at| == |CollectOverdue(specs, today)|
    ensures forall j, k :: 0 <= j < k < |at| ==> at[j] < at[k]
    ensures forall k :: 0 <= k < |at| ==> at[k] < |specs| && Reports(CollectOverdue(specs, today)[k], specs[at[k]])
    ensures forall i :: 0 <= i < |specs| ==> (i in at <==> Overdue(specs[i], today))
  {
    hide Overdue;
    if specs == [] {
      at := [];
    } else {
      var n := |specs| - 1;
      assert specs == specs[..n] + [specs[n]];
      DeclarationOrderKept(specs[..n], [specs[n]], today);
      at := OverdueEntries(specs[..n], today);
      OneEntry(specs[n], today);
      assert forall i :: i in at ==> i < n;
      if Overdue(specs[n], today) {
        at := at + [n];
      }
    }
  }

  lemma OneEntry(spec: FlagSpec, today: string)
    ensures var r := CollectOverdue([spec], today);
            if Overdue(spec, today) then |r| == 1 && Reports(r[0], spec) else r == []
  {
  }

  /** The report is the entries past their day, each exactly once, in declaration order. */
  lemma EachOverdueOnceInOrder(specs: seq<FlagSpec>, now: Instant) returns (at: seq<nat>)
    requires Declared(specs) && FourDigitYear(KstDay(now))
    ensures ExpiredFlags(specs, KstCalendarDate(now)).Ok?
    ensures var report := ExpiredFlags(specs, KstCalendarDate(now)).value;
            && |at| == |report|
            && (forall j, k :: 0 <= j < k < |at| ==> at[j] < at[k])
            && (forall k :: 0 <= k < |at| ==> at[k] < |specs| && Reports(report[k], specs[at[k]]))
    ensures forall i :: 0 <= i < |specs| ==>
              (i in at <==> specs[i].lifecycle.Temporary?
                            && DayNumber(Parse(specs[i].lifecycle.removeBy)) < KstDay(now))
  {
    hide KstCalendarDate, DayNumber;
    var today := KstCalendarDate(now);
    CalendarDateNamesItsDay(now);
    at := OverdueEntries(specs, today);
    forall i | 0 <= i < |specs| && specs[i].lifecycle.Temporary?
      ensures Overdue(specs[i], today) <==> DayNumber(Parse(specs[i].lifecycle.removeBy)) < KstDay(now)
    {
      LexicographicIsChronological(specs[i].lifecycle.removeBy, today);
    }
  }
}
