/** Resolving reported model names to pricing identities (internal/usage/modelmatch/matcher.go).
    Strings are sequences of bytes written as characters. */
module ModelMatch {
  import opened Wrappers

  datatype Identity = Identity(provider: string, model: string)

  datatype Method = Exact | Normalized | Suffix | Dated

  datatype Resolution = Matched(identity: Identity, how: Method) | Unknown | Ambiguous

  function Providers(): set<string> { {"anthropic", "google", "openai", "xai"} }

  // ------------------------------------------------------------------- spellings

  function ToLower(c: char): char { if 'A' <= c <= 'Z' then c + 32 as char else c }

  predicate IsDigit(c: char) { '0' <= c <= '9' }

  function Lowered(model: string): string { seq(|model|, i requires 0 <= i < |model| => ToLower(model[i])) }

  predicate Dotted(s: string, i: int) { 0 < i < |s| - 1 && s[i] == '.' && IsDigit(s[i - 1]) && IsDigit(s[i + 1]) }

  const CLAUDE := "claude-"

  /** Case folded, and for Claude models every dot between digits made a dash, all at once. */
  function Normal(model: string): string {
    var s := Lowered(model);
    if CLAUDE <= s then seq(|s|, i requires 0 <= i < |s| => if Dotted(s, i) then '-' else s[i]) else s
  }

  /** normalize rewrites its copy in place, front to back; the rewriting of one byte never
      decides another. */
  method Normalize(model: string) returns (r: string)
    ensures r == Normal(model)
  {
    var folded := new char[|model|](i requires 0 <= i < |model| => model[i]);
    for i := 0 to |model|
      invariant forall k :: 0 <= k < |model| ==> folded[k] == if k < i then ToLower(model[k]) else model[k]
    {
      if 'A' <= folded[i] <= 'Z' {
        folded[i] := folded[i] + 32 as char;
      }
    }
    ghost var s := Lowered(model);
    assert folded[..] == s;
    if folded.Length >= 7 && folded[..7] == CLAUDE {
      var i := 1;
      while i + 1 < folded.Length
        invariant 1 <= i && (i < folded.Length || i == folded.Length)
        invariant forall k :: 0 <= k < |s| ==> folded[k] == if k < i && Dotted(s, k) then '-' else s[k]
      {
        if folded[i] == '.' && IsDigit(folded[i - 1]) && IsDigit(folded[i + 1]) {
          folded[i] := '-';
        }
        i := i + 1;
      }
    }
    r := folded[..];
  }

  /** Normalizing twice changes nothing. */
  lemma NormalIdempotent(model: string)
    ensures Normal(Normal(model)) == Normal(model)
  {
    var s, n := Lowered(model), Normal(model);
    assert forall i :: 0 <= i < |n| ==> ToLower(n[i]) == n[i];
    assert Lowered(n) == n;
    assert forall i :: 0 <= i < 7 && CLAUDE <= s ==> n[i] == s[i];
    assert CLAUDE <= n ==> n[..7] == CLAUDE;
  }

  // -------------------------------------------------------------------- suffixes

  predicate AllDigits(s: string) { forall i :: 0 <= i < |s| ==> IsDigit(s[i]) }

  function Number(s: string): nat
    requires AllDigits(s)
  {
    if s == [] then 0 else Number(s[..|s| - 1]) * 10 + (s[|s| - 1] - '0') as nat
  }

  predicate Leap(year: nat) { year % 4 == 0 && (year % 100 != 0 || year % 400 == 0) }

  function DaysIn(year: nat, month: nat): nat {
    if month == 2 then if Leap(year) then 29 else 28
    else if month == 4 || month == 6 || month == 9 || month == 11 then 30
    else 31
  }

  /** A Gregorian date in digits, other than in year 0. */
  predicate IsDate(year: string, month: string, day: string) {
    && AllDigits(year) && AllDigits(month) && AllDigits(day)
    && Number(year) != 0 && 1 <= Number(month) <= 12 && 1 <= Number(day) <= DaysIn(Number(year), Number(month))
  }

  predicate IsCompact(s: string) { |s| == 8 && IsDate(s[..4], s[4..6], s[6..]) }

  predicate IsDashed(s: string) { |s| == 10 && s[4] == '-' && s[7] == '-' && IsDate(s[..4], s[5..7], s[8..]) }

  /** stripDate: a dash and a date in either layout come off. */
  function StripDate(model: string): Option<string> {
    var n := |model|;
    if n > 8 && model[n - 9] == '-' && IsCompact(model[n - 8..]) then Some(model[..n - 9])
    else if n > 10 && model[n - 11] == '-' && IsDashed(model[n - 10..]) then Some(model[..n - 11])
    else None
  }

  /** A date in either layout. */
  predicate IsAnyDate(date: string) { IsCompact(date) || IsDashed(date) }

  /** Exactly a dash and a date at the end come off. */
  lemma DateComesOff(model: string, stem: string)
    ensures StripDate(model) == Some(stem) <==> exists date :: IsAnyDate(date) && model == stem + "-" + date
  {
    hide IsDate;
    if StripDate(model) == Some(stem) {
      var date := model[|stem| + 1..];
      assert IsAnyDate(date) && model == stem + "-" + date;
    }
    forall date | IsAnyDate(date) && model == stem + "-" + date ensures StripDate(model) == Some(stem) {
      DateAtEnd(model, stem, date);
    }
  }

  lemma DateAtEnd(model: string, stem: string, date: string)
    requires IsAnyDate(date) && model == stem + "-" + date
    ensures StripDate(model) == Some(stem)
  {
    var n := |model|;
    assert model[|stem|] == '-' && model[|stem| + 1..] == date && model[..|stem|] == stem;
    if IsDashed(date) { DashedIsNotCompact(model, date); }
    hide IsDate;
  }

  lemma DashedIsNotCompact(model: string, date: string)
    requires IsDashed(date) && |model| >= 10 && model[|model| - 10..] == date
    ensures !IsCompact(model[|model| - 8..])
  {
    var last := model[|model| - 8..];
    assert last[5] == model[|model| - 3] == date[7] == '-';
    if |last| == 8 { assert last[4..6][1] == '-'; }
  }

  /** A number written in exactly that many digits. */
  function Digits(n: nat, count: nat): (s: string)
    ensures |s| == count
    decreases count
  {
    if count == 0 then "" else Digits(n / 10, count - 1) + ['0' + (n % 10) as char]
  }

  function Tens(count: nat): nat { if count == 0 then 1 else 10 * Tens(count - 1) }

  lemma {:induction false} DigitsRead(n: nat, count: nat)
    requires n < Tens(count)
    ensures AllDigits(Digits(n, count)) && Number(Digits(n, count)) == n
    decreases count
  {
    if count > 0 {
      DigitsRead(n / 10, count - 1);
      var s := Digits(n, count);
      assert s[..count - 1] == Digits(n / 10, count - 1) && s[count - 1] == '0' + (n % 10) as char;
    }
  }

  lemma {:induction false} NumberWrites(s: string)
    requires AllDigits(s)
    ensures Number(s) < Tens(|s|) && Digits(Number(s), |s|) == s
    decreases |s|
  {
    var k := |s| - 1;
    if k >= 0 {
      NumberWrites(s[..k]);
      assert Number(s) / 10 == Number(s[..k]) && Number(s) % 10 == (s[k] - '0') as nat;
      assert s == s[..k] + [s[k]];
    }
  }

  /** A day of the years 1 to 9999. */
  predicate IsDay(year: nat, month: nat, day: nat) { 1 <= year <= 9999 && 1 <= month <= 12 && 1 <= day <= DaysIn(year, month) }

  lemma DateReads(year: string, month: string, day: string)
    requires |year| == 4 && |month| == |day| == 2
    ensures IsDate(year, month, day) <==>
      exists y: nat, m: nat, d: nat :: IsDay(y, m, d) && year == Digits(y, 4) && month == Digits(m, 2) && day == Digits(d, 2)
  {
    hide Leap, DaysIn, Digits, Number, AllDigits;
    TensAre();
    if IsDate(year, month, day) {
      NumberWrites(year);
      NumberWrites(month);
      NumberWrites(day);
      assert IsDay(Number(year), Number(month), Number(day));
    }
    forall y: nat, m: nat, d: nat | IsDay(y, m, d) && year == Digits(y, 4) && month == Digits(m, 2) && day == Digits(d, 2)
      ensures IsDate(year, month, day)
    {
      DaysAtMost(y, m);
      DigitsRead(y, 4);
      DigitsRead(m, 2);
      DigitsRead(d, 2);
    }
  }

  lemma TensAre()
    ensures Tens(2) == 100 && Tens(4) == 10_000
  {
    assert Tens(1) == 10 && Tens(3) == 1000;
  }

  lemma DaysAtMost(year: nat, month: nat)
    ensures DaysIn(year, month) <= 31
  {}

  predicate WritesCompact(s: string, y: nat, m: nat, d: nat) { s == Digits(y, 4) + Digits(m, 2) + Digits(d, 2) }

  predicate WritesDashed(s: string, y: nat, m: nat, d: nat) { s == Digits(y, 4) + "-" + Digits(m, 2) + "-" + Digits(d, 2) }

  lemma CompactIsWritten(s: string)
    ensures IsCompact(s) <==> exists y: nat, m: nat, d: nat :: IsDay(y, m, d) && WritesCompact(s, y, m, d)
  {
    hide IsDate, IsDay;
    if |s| == 8 {
      DateReads(s[..4], s[4..6], s[6..]);
      assert s == s[..4] + s[4..6] + s[6..];
      forall y: nat, m: nat, d: nat | IsDay(y, m, d) && WritesCompact(s, y, m, d)
        ensures s[..4] == Digits(y, 4) && s[4..6] == Digits(m, 2) && s[6..] == Digits(d, 2)
      {}
      if IsCompact(s) {
        var y: nat, m: nat, d: nat :| IsDay(y, m, d) && s[..4] == Digits(y, 4) && s[4..6] == Digits(m, 2) && s[6..] == Digits(d, 2);
        assert WritesCompact(s, y, m, d);
      }
    }
  }

  lemma Dashes(s: string, a: string, b: string, c: string)
    requires |s| == 10 && |a| == 4 && |b| == |c| == 2
    ensures s == a + "-" + b + "-" + c <==> s[4] == s[7] == '-' && s[..4] == a && s[5..7] == b && s[8..] == c
  {
    if s[4] == s[7] == '-' { assert s == s[..4] + "-" + s[5..7] + "-" + s[8..]; }
  }

  lemma DashedIsWritten(s: string)
    ensures IsDashed(s) <==> exists y: nat, m: nat, d: nat :: IsDay(y, m, d) && WritesDashed(s, y, m, d)
  {
    hide IsDate, IsDay;
    if |s| == 10 {
      DateReads(s[..4], s[5..7], s[8..]);
      forall y: nat, m: nat, d: nat | IsDay(y, m, d) && WritesDashed(s, y, m, d)
        ensures s[4] == s[7] == '-' && s[..4] == Digits(y, 4) && s[5..7] == Digits(m, 2) && s[8..] == Digits(d, 2)
      {
        Dashes(s, Digits(y, 4), Digits(m, 2), Digits(d, 2));
      }
      if IsDashed(s) {
        Dashes(s, s[..4], s[5..7], s[8..]);
        var y: nat, m: nat, d: nat :| IsDay(y, m, d) && s[..4] == Digits(y, 4) && s[5..7] == Digits(m, 2) && s[8..] == Digits(d, 2);
        assert WritesDashed(s, y, m, d);
      }
    }
  }

  /** What comes off as a date is exactly a day written in eight digits, or in ten characters with dashes. */
  lemma DatesAreWritten(s: string)
    ensures IsAnyDate(s) <==> exists y: nat, m: nat, d: nat :: IsDay(y, m, d) && (WritesCompact(s, y, m, d) || WritesDashed(s, y, m, d))
  {
    CompactIsWritten(s);
    DashedIsWritten(s);
    hide IsCompact, IsDashed, IsDay, WritesCompact, WritesDashed;
  }

  function DaysBefore(year: nat, month: nat): nat
    requires month <= 13
  {
    if month <= 1 then 0 else DaysBefore(year, month - 1) + DaysIn(year, month - 1)
  }

  function LeapsBefore(year: nat): nat { if year == 0 then 0 else LeapsBefore(year - 1) + if Leap(year - 1) then 1 else 0 }

  /** The Gregorian calendar: years have 365 days or, once more in leap years, 366, and each four hundred
      of them have 97 leap years; the months alternate between 31 and 30 days up to July and from August
      on, save February. */
  lemma GregorianYears(year: nat, month: nat)
    ensures DaysBefore(year, 13) == 365 + if Leap(year) then 1 else 0
    ensures LeapsBefore(year) == (year + 3) / 4 - (year + 99) / 100 + (year + 399) / 400
    ensures LeapsBefore(year + 400) == LeapsBefore(year) + 97
    ensures 1 <= month <= 12 && month != 2 ==> DaysIn(year, month) == if (month <= 7) == (month % 2 == 1) then 31 else 30
  {
    MonthsOf(year);
    LeapsAre(year);
    LeapsAre(year + 400);
    FourCenturies(year);
    if 1 <= month <= 12 && month != 2 { MonthLengths(year, month); }
    hide *;
  }

  lemma MonthsOf(year: nat)
    ensures DaysBefore(year, 13) == 365 + if Leap(year) then 1 else 0
  {
    hide Leap;
    MonthStep(year, 1);
    MonthStep(year, 2);
    MonthStep(year, 3);
    MonthStep(year, 4);
    MonthStep(year, 5);
    MonthStep(year, 6);
    MonthStep(year, 7);
    MonthStep(year, 8);
    MonthStep(year, 9);
    MonthStep(year, 10);
    MonthStep(year, 11);
    MonthStep(year, 12);
    hide DaysBefore;
  }

  lemma MonthStep(year: nat, month: nat)
    requires 1 <= month <= 12
    ensures DaysBefore(year, 1) == 0 && DaysBefore(year, month + 1) == DaysBefore(year, month) + DaysIn(year, month)
  {
    hide DaysIn;
  }

  lemma {:induction false} LeapsAre(year: nat)
    ensures LeapsBefore(year) == (year + 3) / 4 - (year + 99) / 100 + (year + 399) / 400
  {
    hide Leap;
    if year > 0 {
      LeapsAre(year - 1);
      LeapStep(year - 1);
    }
  }

  lemma LeapStep(y: nat)
    ensures (y + 4) / 4 - (y + 100) / 100 + (y + 400) / 400 ==
      (y + 3) / 4 - (y + 99) / 100 + (y + 399) / 400 + if Leap(y) then 1 else 0
  {
    Fourth(y);
    Hundredth(y);
    FourHundredth(y);
    Nested(y);
  }

  lemma Fourth(y: nat)
    ensures (y + 4) / 4 == (y + 3) / 4 + if y % 4 == 0 then 1 else 0
  {}

  lemma Hundredth(y: nat)
    ensures (y + 100) / 100 == (y + 99) / 100 + if y % 100 == 0 then 1 else 0
  {}

  lemma FourHundredth(y: nat)
    ensures (y + 400) / 400 == (y + 399) / 400 + if y % 400 == 0 then 1 else 0
  {}

  lemma Nested(y: nat)
    ensures (y % 100 == 0 ==> y % 4 == 0) && (y % 400 == 0 ==> y % 100 == 0)
  {
    if y % 100 == 0 { assert y == 4 * (25 * (y / 100)); }
    if y % 400 == 0 { assert y == 100 * (4 * (y / 400)); }
  }

  lemma FourCenturies(y: nat)
    ensures (y + 403) / 4 == (y + 3) / 4 + 100 && (y + 499) / 100 == (y + 99) / 100 + 4 && (y + 799) / 400 == (y + 399) / 400 + 1
  {}

  lemma MonthLengths(year: nat, month: nat)
    requires 1 <= month <= 12 && month != 2
    ensures DaysIn(year, month) == if (month <= 7) == (month % 2 == 1) then 31 else 30
  {
    hide Leap;
  }

  const FAST := "-fast"

  /** stripFast: "-fast" in any case comes off. */
  function StripFast(model: string): Option<string> {
    var n := |model|;
    if n >= 5 && Lowered(model[n - 5..]) == FAST then Some(model[..n - 5]) else None
  }

  /** The byte loop of stripFast. */
  method CheckFast(model: string) returns (stem: Option<string>)
    ensures stem == StripFast(model)
  {
    if |model| < 5 {
      return None;
    }
    var start := |model| - 5;
    for index := 0 to 5
      invariant forall k :: 0 <= k < index ==> Lowered(model[start..])[k] == FAST[k]
    {
      var got := model[start + index];
      if 'A' <= got <= 'Z' {
        got := got + 32 as char;
      }
      if got != FAST[index] {
        return None;
      }
    }
    assert Lowered(model[start..]) == FAST;
    return Some(model[..start]);
  }

  /** No name ends in both kinds of suffix. */
  lemma SuffixesDisjoint(model: string)
    ensures StripDate(model).None? || StripFast(model).None?
  {
    var n := |model|;
    if n >= 5 { assert Lowered(model[n - 5..])[4] == ToLower(model[n - 1]); }
    if n > 8 && IsCompact(model[n - 8..]) { assert model[n - 8..][6..][1] == model[n - 1]; }
    if n > 10 && IsDashed(model[n - 10..]) { assert model[n - 10..][8..][1] == model[n - 1]; }
  }

  /** The name after one removal: there is at most one way. */
  function Once(model: string): Option<string> {
    if StripFast(model).Some? then StripFast(model) else StripDate(model)
  }

  /** The name after one removal of each kind. */
  function Twice(model: string): Option<string> {
    if StripFast(model).Some? then StripDate(StripFast(model).value)
    else if StripDate(model).Some? then StripFast(StripDate(model).value)
    else None
  }

  predicate HasDate(model: string) {
    StripDate(model).Some? || (StripFast(model).Some? && StripDate(StripFast(model).value).Some?)
  }

  /** A name has a date exactly when one ends it, or all of it but a final "-fast" in any case. */
  lemma DatedNames(model: string)
    ensures HasDate(model) <==>
      || (exists stem: string, date: string :: IsAnyDate(date) && model == stem + "-" + date)
      || (exists stem: string, date: string, tail: string :: IsAnyDate(date) && Lowered(tail) == FAST && model == stem + "-" + date + tail)
  {
    hide IsAnyDate, StripDate, Lowered;
    var n := |model|;
    if StripDate(model).Some? { DateComesOff(model, StripDate(model).value); }
    if StripFast(model).Some? {
      var rest := StripFast(model).value;
      assert model == rest + model[n - 5..];
      if StripDate(rest).Some? {
        DateComesOff(rest, StripDate(rest).value);
        var date :| IsAnyDate(date) && rest == StripDate(rest).value + "-" + date;
        assert IsAnyDate(date) && Lowered(model[n - 5..]) == FAST && model == StripDate(rest).value + "-" + date + model[n - 5..];
      }
    }
    forall stem: string, date: string | IsAnyDate(date) && model == stem + "-" + date ensures HasDate(model) {
      DateComesOff(model, stem);
    }
    forall stem: string, date: string, tail: string | IsAnyDate(date) && Lowered(tail) == FAST && model == stem + "-" + date + tail
      ensures HasDate(model)
    {
      FastTail(stem + "-" + date, tail);
      DateComesOff(stem + "-" + date, stem);
    }
  }

  lemma FastTail(stem: string, tail: string)
    requires Lowered(tail) == FAST
    ensures StripFast(stem + tail) == Some(stem)
  {
    var model := stem + tail;
    assert |tail| == |Lowered(tail)| == 5;
    assert model[|model| - 5..] == tail && model[..|model| - 5] == stem;
  }

  // ----------------------------------------------------------------------- policy

  /** Identities a report may use: those of the original providers. */
  function Recognized(candidates: seq<Identity>): set<Identity> { set i <- candidates | i.provider in Providers() }

  predicate InScope(i: Identity, provider: string) { provider == "" || i.provider == provider }

  function SameName(ids: set<Identity>, provider: string, model: string): set<Identity> {
    set i <- ids | InScope(i, provider) && i.model == model
  }

  function SameNormal(ids: set<Identity>, provider: string, model: string): set<Identity> {
    set i <- ids | InScope(i, provider) && Normal(i.model) == Normal(model)
  }

  function SameUndated(ids: set<Identity>, provider: string, model: string): set<Identity> {
    set i <- ids | InScope(i, provider) && StripDate(i.model).Some? && Normal(StripDate(i.model).value) == Normal(model)
  }

  /** One identity is a match, several are ambiguous. */
  ghost function Verdict(found: set<Identity>, how: Method): Resolution
    requires found != {}
  {
    var i :| i in found;
    if found == {i} then Matched(i, how) else Ambiguous
  }

  /** The dated stage: dated identities of the name, or of the name without its fast suffix. */
  function DatedStage(ids: set<Identity>, provider: string, model: string): set<Identity> {
    if HasDate(model) then {}
    else SameUndated(ids, provider, model)
         + if StripFast(model).Some? then SameUndated(ids, provider, StripFast(model).value) else {}
  }

  ghost function SuffixStage(ids: set<Identity>, provider: string, stem: Option<string>): Option<Resolution> {
    if stem.None? then None
    else if SameName(ids, provider, stem.value) != {} then Some(Verdict(SameName(ids, provider, stem.value), Suffix))
    else if SameNormal(ids, provider, stem.value) != {} then Some(Verdict(SameNormal(ids, provider, stem.value), Suffix))
    else None
  }

  /** The policy: the first stage that finds anything decides, from exact to dated, fewer
      removals before more. */
  ghost function Policy(ids: set<Identity>, provider: string, model: string): Resolution {
    if SameName(ids, provider, model) != {} then Verdict(SameName(ids, provider, model), Exact)
    else if SameNormal(ids, provider, model) != {} then Verdict(SameNormal(ids, provider, model), Normalized)
    else if SuffixStage(ids, provider, Once(model)).Some? then SuffixStage(ids, provider, Once(model)).value
    else if SuffixStage(ids, provider, Twice(model)).Some? then SuffixStage(ids, provider, Twice(model)).value
    else if DatedStage(ids, provider, model) != {} then Verdict(DatedStage(ids, provider, model), Dated)
    else Unknown
  }

  /** A match is always one of the identities. */
  lemma MatchedMember(ids: set<Identity>, provider: string, model: string)
    requires Policy(ids, provider, model).Matched?
    ensures Policy(ids, provider, model).identity in ids
  {
    hide Normal, StripDate, StripFast, HasDate, Once, Twice;
  }

  // ------------------------------------------------------------------------- keys

  const NUL: char := 0 as char

  function Key(provider: string, model: string): string { provider + [NUL] + model }

  predicate IsScope(provider: string) { provider == "" || provider in Providers() }

  /** A key tells its provider and model apart. */
  lemma KeyInjective(p: string, m: string, q: string, n: string)
    requires IsScope(p) && IsScope(q) && Key(p, m) == Key(q, n)
    ensures p == q && m == n
  {
    assert NUL !in p && NUL !in q by { ScopeHasNoNul(p); ScopeHasNoNul(q); }
    var key := Key(p, m);
    assert key[|p|] == NUL && key[|q|] == NUL;
    assert |p| == |q| by { FirstNul(key, p, q); }
    assert key[..|p|] == p && key[..|q|] == q;
    assert key[|p| + 1..] == m && key[|q| + 1..] == n;
  }

  lemma FirstNul(key: string, p: string, q: string)
    requires |p| < |key| && |q| < |key| && key[..|p|] == p && key[..|q|] == q
    requires key[|p|] == NUL && key[|q|] == NUL && NUL !in p && NUL !in q
    ensures |p| == |q|
  {
    assert forall i :: 0 <= i < |p| ==> key[i] == p[i];
    assert forall i :: 0 <= i < |q| ==> key[i] == q[i];
  }

  lemma ScopeHasNoNul(p: string)
    requires IsScope(p)
    ensures NUL !in p
  {}

  datatype Kind = ByName | ByNormal | ByUndated

  // One identity filed under one key of one index.
  datatype Filing = Filing(kind: Kind, key: string, identity: Identity)

  /** Everything New files for one identity. */
  function FilingsOf(i: Identity): set<Filing> {
    {Filing(ByName, Key("", i.model), i), Filing(ByName, Key(i.provider, i.model), i),
     Filing(ByNormal, Key("", Normal(i.model)), i), Filing(ByNormal, Key(i.provider, Normal(i.model)), i)}
    + if StripDate(i.model).Some? then
        var stem := Normal(StripDate(i.model).value);
        {Filing(ByUndated, Key("", stem), i), Filing(ByUndated, Key(i.provider, stem), i)}
      else {}
  }

  function AllFilings(ids: set<Identity>): set<Filing> { set i <- ids, f <- FilingsOf(i) :: f }

  /** The identities under a key. */
  function Under(filings: set<Filing>, kind: Kind, key: string): set<Identity> {
    set f <- filings | f.kind == kind && f.key == key :: f.identity
  }

  function KeysIn(filings: set<Filing>): set<(Kind, string)> { set f <- filings :: (f.kind, f.key) }

  /** Bytes of all keys, each counted once. */
  ghost function KeyBytes(keys: set<(Kind, string)>): nat {
    if keys == {} then 0 else var k :| k in keys; |k.1| + KeyBytes(keys - {k})
  }

  lemma {:induction false} KeyBytesWithout(keys: set<(Kind, string)>, k: (Kind, string))
    requires k in keys
    ensures KeyBytes(keys) == |k.1| + KeyBytes(keys - {k})
  {
    var first :| first in keys && KeyBytes(keys) == |first.1| + KeyBytes(keys - {first});
    if first != k {
      KeyBytesWithout(keys - {first}, k);
      KeyBytesWithout(keys - {k}, first);
      assert keys - {first} - {k} == keys - {k} - {first};
    }
  }

  lemma {:induction false} KeyBytesAtMost(some: set<(Kind, string)>, all: set<(Kind, string)>)
    requires some <= all
    ensures KeyBytes(some) <= KeyBytes(all)
    decreases all
  {
    if some != {} {
      var k :| k in some;
      KeyBytesWithout(some, k);
      KeyBytesWithout(all, k);
      KeyBytesAtMost(some - {k}, all - {k});
    }
  }

  // ---------------------------------------------------------------------- matcher

  datatype Selection = Selection(identity: Identity, ambiguous: bool)

  function Look(index: map<string, Selection>, key: string): Option<Selection> {
    if key in index then Some(index[key]) else None
  }

  /** A selection stands for a set of identities: some member, and whether there are others. */
  predicate Stands(s: Option<Selection>, ids: set<Identity>) {
    && (s.None? <==> ids == {})
    && (s.Some? ==> s.value.identity in ids && (s.value.ambiguous <==> ids != {s.value.identity}))
  }

  function Merge(left: Selection, right: Selection): Selection {
    if left.ambiguous || right.ambiguous || left.identity != right.identity then left.(ambiguous := true) else left
  }

  lemma MergeStands(a: Selection, b: Selection, s: set<Identity>, t: set<Identity>)
    requires Stands(Some(a), s) && Stands(Some(b), t)
    ensures Stands(Some(Merge(a, b)), s + t)
  {
    if s == {a.identity} && t == {b.identity} {
      if a.identity != b.identity { assert b.identity in s + t; }
    } else if a.ambiguous {
      assert exists x :: x in s && x != a.identity;
    } else if b.ambiguous {
      assert exists x :: x in t && x != b.identity;
    }
  }

  function Decide(s: Selection, how: Method): Resolution { if s.ambiguous then Ambiguous else Matched(s.identity, how) }

  lemma DecideIs(s: Option<Selection>, ids: set<Identity>, how: Method)
    requires Stands(s, ids) && s.Some?
    ensures ids != {} && Decide(s.value, how) == Verdict(ids, how)
  {
    var i :| i in ids && Verdict(ids, how) == if ids == {i} then Matched(i, how) else Ambiguous;
    if ids == {i} {
      assert s.value.identity == i;
    }
  }

  /** reportedScope: a recognized provider in front of a slash, or none. */
  function ReportedScope(reported: string): (string, string) {
    if "anthropic/" <= reported then ("anthropic", reported[10..])
    else if "google/" <= reported then ("google", reported[7..])
    else if "openai/" <= reported then ("openai", reported[7..])
    else if "xai/" <= reported then ("xai", reported[4..])
    else ("", reported)
  }

  lemma QualifiedScope(provider: string, model: string)
    requires provider in Providers()
    ensures ReportedScope(provider + "/" + model) == (provider, model)
  {
    var reported := provider + "/" + model;
    assert reported[..|provider| + 1] == provider + "/";
    assert reported[|provider| + 1..] == model;
    assert reported[0] == provider[0];
  }

  /** Only a recognized provider in front of a slash is taken for a scope; any other name is whole. */
  lemma ScopeIs(reported: string)
    ensures var (provider, model) := ReportedScope(reported);
      if exists p <- Providers() :: p + "/" <= reported then provider in Providers() && reported == provider + "/" + model
      else provider == "" && model == reported
  {
    assert "anthropic" + "/" == "anthropic/" && "google" + "/" == "google/" && "openai" + "/" == "openai/" && "xai" + "/" == "xai/";
    assert "anthropic" in Providers() && "google" in Providers() && "openai" in Providers() && "xai" in Providers();
    var (provider, model) := ReportedScope(reported);
    if provider != "" { assert reported == provider + "/" + model; }
  }

  /** Matcher: three indexes and the bytes of their keys. */
  class Matcher {
    var exact: map<string, Selection>
    var normalized: map<string, Selection>
    var datedNormalized: map<string, Selection>
    var retained: nat
    ghost var filings: set<Filing>

    constructor ()
      ensures Valid() && filings == {} && retained == 0
    {
      exact, normalized, datedNormalized, retained, filings := map[], map[], map[], 0, {};
      new;
      assert forall kind, key :: Under({}, kind, key) == {};
      assert KeysIn({}) == {};
    }

    function Index(kind: Kind): map<string, Selection>
      reads this
    {
      match kind
      case ByName => exact
      case ByNormal => normalized
      case ByUndated => datedNormalized
    }

    /** Each index stands for what has been filed, and each key was charged once. */
    ghost predicate Valid()
      reads this
    {
      && (forall kind, key :: Stands(Look(Index(kind), key), Under(filings, kind, key)))
      && retained == KeyBytes(KeysIn(filings))
    }

    function Found(kind: Kind, provider: string, model: string): Option<Selection>
      reads this
    {
      Look(Index(kind), Key(provider, model))
    }

    /** Resolve, after reportedScope has split the reported name. */
    function ResolveIn(provider: string, model: string): Resolution
      reads this
    {
      var exact, normalized := Found(ByName, provider, model), Found(ByNormal, provider, Normal(model));
      if exact.Some? then Decide(exact.value, Exact)
      else if normalized.Some? then Decide(normalized.value, Normalized)
      else
        var fast := FastStage(provider, model);
        if fast.Some? then fast.value
        else
          var dated := DateStage(provider, model);
          if dated.Some? then dated.value
          else if HasDate(model) then Unknown
          else
            var selected := UndatedStage(provider, model);
            if selected.Some? then Decide(selected.value, Dated) else Unknown
    }

    function StemStage(provider: string, stem: string): Option<Resolution>
      reads this
    {
      var exact, normalized := Found(ByName, provider, stem), Found(ByNormal, provider, Normal(stem));
      if exact.Some? then Some(Decide(exact.value, Suffix))
      else if normalized.Some? then Some(Decide(normalized.value, Suffix))
      else None
    }

    /** Without "-fast", then also without a date. */
    function FastStage(provider: string, model: string): Option<Resolution>
      reads this
    {
      var stem := StripFast(model);
      if stem.None? then None
      else if StemStage(provider, stem.value).Some? then StemStage(provider, stem.value)
      else if StripDate(stem.value).Some? then StemStage(provider, StripDate(stem.value).value)
      else None
    }

    /** Without a date, then also without "-fast". */
    function DateStage(provider: string, model: string): Option<Resolution>
      reads this
    {
      var stem := StripDate(model);
      if stem.None? then None
      else if StemStage(provider, stem.value).Some? then StemStage(provider, stem.value)
      else if StripFast(stem.value).Some? then StemStage(provider, StripFast(stem.value).value)
      else None
    }

    function UndatedStage(provider: string, model: string): Option<Selection>
      reads this
    {
      var selected := Found(ByUndated, provider, Normal(model));
      var stem := StripFast(model);
      if stem.None? then selected
      else
        var alternative := Found(ByUndated, provider, Normal(stem.value));
        if alternative.None? then selected
        else if selected.Some? then Some(Merge(selected.value, alternative.value))
        else alternative
    }

    /** Resolve. */
    function Resolve(reported: string): Resolution
      reads this
    {
      var (provider, model) := ReportedScope(reported);
      ResolveIn(provider, model)
    }

    /** addSelection. */
    method AddSelection(kind: Kind, key: string, identity: Identity, maxBytes: nat) returns (ok: bool)
      requires Valid() && retained <= maxBytes
      modifies this
      ensures Valid() && retained <= maxBytes
      ensures ok ==> filings == old(filings) + {Filing(kind, key, identity)}
      ensures !ok ==> KeyBytes(KeysIn(old(filings) + {Filing(kind, key, identity)})) > maxBytes
    {
      hide KeyBytes, KeysIn, Under;
      var index := Index(kind);
      ghost var was := filings;
      ghost var filing := Filing(kind, key, identity);
      FiledKeys(was, filing);
      assert Stands(Look(index, key), Under(was, kind, key));
      if key !in index {
        if |key| > maxBytes - retained {
          return false;
        }
        index := index[key := Selection(identity, false)];
        retained := retained + |key|;
      } else if index[key].identity != identity {
        index := index[key := index[key].(ambiguous := true)];
      }
      match kind {
        case ByName => exact := index;
        case ByNormal => normalized := index;
        case ByUndated => datedNormalized := index;
      }
      filings := filings + {filing};
      ok := true;
      forall k, other ensures Stands(Look(Index(k), other), Under(filings, k, other)) {
        FiledUnder(was, filing, k, other);
      }
    }
  }

  lemma FiledUnder(filings: set<Filing>, f: Filing, kind: Kind, key: string)
    ensures Under(filings + {f}, kind, key) == Under(filings, kind, key) + if f.kind == kind && f.key == key then {f.identity} else {}
  {}

  lemma KeyFiled(filings: set<Filing>, kind: Kind, key: string)
    requires (kind, key) in KeysIn(filings)
    ensures Under(filings, kind, key) != {}
  {
    var g :| g in filings && (g.kind, g.key) == (kind, key);
    assert g.identity in Under(filings, kind, key);
  }

  lemma FiledKeys(filings: set<Filing>, f: Filing)
    ensures var keys := KeysIn(filings + {f});
      KeyBytes(keys) == KeyBytes(KeysIn(filings)) + if Under(filings, f.kind, f.key) == {} then |f.key| else 0
  {
    var keys, k := KeysIn(filings), (f.kind, f.key);
    assert KeysIn(filings + {f}) == keys + {k};
    if Under(filings, f.kind, f.key) == {} {
      if k in keys { KeyFiled(filings, f.kind, f.key); }
      KeyBytesWithout(keys + {k}, k);
      assert keys + {k} - {k} == keys;
    } else {
      var i :| i in Under(filings, f.kind, f.key);
      assert keys + {k} == keys;
    }
  }

  // ------------------------------------------------------------------- the theorem

  lemma FilingsAreOwn(i: Identity, f: Filing)
    requires f in FilingsOf(i)
    ensures f.identity == i
  {}

  lemma UnderAll(ids: set<Identity>, kind: Kind, key: string)
    ensures Under(AllFilings(ids), kind, key) == set i <- ids | Filing(kind, key, i) in FilingsOf(i)
  {
    hide FilingsOf;
    forall i ensures i in Under(AllFilings(ids), kind, key) <==> i in ids && Filing(kind, key, i) in FilingsOf(i) {
      if i in Under(AllFilings(ids), kind, key) {
        var f :| f in AllFilings(ids) && f.kind == kind && f.key == key && f.identity == i;
        var j :| j in ids && f in FilingsOf(j);
        FilingsAreOwn(j, f);
      }
    }
  }

  /** An identity is under the unqualified key and under its provider's, and no other. */
  lemma UnderKeys(i: Identity, provider: string, model: string, name: string)
    requires IsScope(provider) && i.provider in Providers()
    ensures Key(provider, model) == Key("", name) || Key(provider, model) == Key(i.provider, name)
      <==> InScope(i, provider) && model == name
  {
    hide Providers, Key;
    if Key(provider, model) == Key("", name) { KeyInjective(provider, model, "", name); }
    if Key(provider, model) == Key(i.provider, name) { KeyInjective(provider, model, i.provider, name); }
  }

  lemma FiledByName(ids: set<Identity>, provider: string, model: string)
    requires IsScope(provider) && forall i <- ids :: i.provider in Providers()
    ensures Under(AllFilings(ids), ByName, Key(provider, model)) == SameName(ids, provider, model)
  {
    hide Under, AllFilings, Key, Normal, StripDate, Providers;
    UnderAll(ids, ByName, Key(provider, model));
    forall i | i in ids ensures Filing(ByName, Key(provider, model), i) in FilingsOf(i) <==> i in SameName(ids, provider, model) {
      UnderKeys(i, provider, model, i.model);
    }
  }

  lemma FiledByNormal(ids: set<Identity>, provider: string, model: string)
    requires IsScope(provider) && forall i <- ids :: i.provider in Providers()
    ensures Under(AllFilings(ids), ByNormal, Key(provider, Normal(model))) == SameNormal(ids, provider, model)
  {
    hide Under, AllFilings, Key, Normal, StripDate, Providers;
    var key := Key(provider, Normal(model));
    UnderAll(ids, ByNormal, key);
    forall i | i in ids ensures Filing(ByNormal, key, i) in FilingsOf(i) <==> i in SameNormal(ids, provider, model) {
      UnderKeys(i, provider, Normal(model), Normal(i.model));
    }
  }

  lemma FiledByUndated(ids: set<Identity>, provider: string, model: string)
    requires IsScope(provider) && forall i <- ids :: i.provider in Providers()
    ensures Under(AllFilings(ids), ByUndated, Key(provider, Normal(model))) == SameUndated(ids, provider, model)
  {
    hide Under, AllFilings, Key, Normal, StripDate, Providers;
    var key := Key(provider, Normal(model));
    UnderAll(ids, ByUndated, key);
    forall i | i in ids ensures Filing(ByUndated, key, i) in FilingsOf(i) <==> i in SameUndated(ids, provider, model) {
      if StripDate(i.model).Some? { UnderKeys(i, provider, Normal(model), Normal(StripDate(i.model).value)); }
    }
  }

  /** The matcher holds exactly these identities. */
  ghost predicate Indexes(m: Matcher, ids: set<Identity>)
    reads m
  {
    m.Valid() && m.filings == AllFilings(ids) && forall i <- ids :: i.provider in Providers()
  }

  lemma FoundIs(m: Matcher, ids: set<Identity>, provider: string, model: string)
    requires Indexes(m, ids) && IsScope(provider)
    ensures Stands(m.Found(ByName, provider, model), SameName(ids, provider, model))
    ensures Stands(m.Found(ByNormal, provider, Normal(model)), SameNormal(ids, provider, model))
    ensures Stands(m.Found(ByUndated, provider, Normal(model)), SameUndated(ids, provider, model))
  {
    hide Stands, Under, AllFilings, SameName, SameNormal, SameUndated, Normal, Providers, Key, Look;
    FiledByName(ids, provider, model);
    FiledByNormal(ids, provider, model);
    FiledByUndated(ids, provider, model);
  }

  lemma StemIs(m: Matcher, ids: set<Identity>, provider: string, stem: string)
    requires Indexes(m, ids) && IsScope(provider)
    ensures m.StemStage(provider, stem) == SuffixStage(ids, provider, Some(stem))
  {
    hide Indexes, SameName, SameNormal, SameUndated, Normal, Providers, Verdict, Decide, Matcher.Found;
    FoundIs(m, ids, provider, stem);
    var exact, normalized := m.Found(ByName, provider, stem), m.Found(ByNormal, provider, Normal(stem));
    if exact.Some? {
      DecideIs(exact, SameName(ids, provider, stem), Suffix);
    } else if normalized.Some? {
      DecideIs(normalized, SameNormal(ids, provider, stem), Suffix);
    }
  }

  /** The two removal branches together are the two suffix stages. */
  lemma SuffixIs(m: Matcher, ids: set<Identity>, provider: string, model: string)
    requires Indexes(m, ids) && IsScope(provider)
    ensures var once, twice := SuffixStage(ids, provider, Once(model)), SuffixStage(ids, provider, Twice(model));
      var branches := if m.FastStage(provider, model).Some? then m.FastStage(provider, model) else m.DateStage(provider, model);
      branches == if once.Some? then once else twice
  {
    hide Indexes, SuffixStage, StripFast, StripDate, Matcher.StemStage, Providers;
    SuffixesDisjoint(model);
    NoStem(ids, provider);
    if StripFast(model).Some? {
      var stem := StripFast(model).value;
      StemIs(m, ids, provider, stem);
      if StripDate(stem).Some? { StemIs(m, ids, provider, StripDate(stem).value); }
    } else if StripDate(model).Some? {
      var stem := StripDate(model).value;
      StemIs(m, ids, provider, stem);
      if StripFast(stem).Some? { StemIs(m, ids, provider, StripFast(stem).value); }
    }
  }

  lemma NoStem(ids: set<Identity>, provider: string)
    ensures SuffixStage(ids, provider, None).None?
  {}

  lemma UndatedIs(m: Matcher, ids: set<Identity>, provider: string, model: string)
    requires Indexes(m, ids) && IsScope(provider) && !HasDate(model)
    ensures Stands(m.UndatedStage(provider, model), DatedStage(ids, provider, model))
  {
    hide Indexes, SameName, SameNormal, SameUndated, Normal, Providers, Matcher.Found, StripFast, HasDate, Merge;
    FoundIs(m, ids, provider, model);
    var stem := StripFast(model);
    if stem.Some? {
      FoundIs(m, ids, provider, stem.value);
      var a, b := m.Found(ByUndated, provider, Normal(model)), m.Found(ByUndated, provider, Normal(stem.value));
      if a.Some? && b.Some? {
        MergeStands(a.value, b.value, SameUndated(ids, provider, model), SameUndated(ids, provider, stem.value));
      } else {
        NothingMore(SameUndated(ids, provider, model), SameUndated(ids, provider, stem.value));
      }
    } else {
      NothingMore(SameUndated(ids, provider, model), {});
    }
  }

  lemma NothingMore(a: set<Identity>, b: set<Identity>)
    ensures a == {} ==> a + b == b
    ensures b == {} ==> a + b == a
  {}

  /** Resolve is the policy. */
  lemma ResolveIsPolicy(m: Matcher, ids: set<Identity>, reported: string)
    requires Indexes(m, ids)
    ensures var (provider, model) := ReportedScope(reported); m.Resolve(reported) == Policy(ids, provider, model)
  {
    hide Indexes, SameName, SameNormal, SameUndated, Normal, Verdict, Decide, Matcher.Found, Matcher.FastStage, Matcher.DateStage,
      Matcher.UndatedStage, SuffixStage, DatedStage, HasDate, Once, Twice, Stands;
    var (provider, model) := ReportedScope(reported);
    FoundIs(m, ids, provider, model);
    SuffixIs(m, ids, provider, model);
    var exact, normalized := m.Found(ByName, provider, model), m.Found(ByNormal, provider, Normal(model));
    StandsSome(exact, SameName(ids, provider, model));
    StandsSome(normalized, SameNormal(ids, provider, model));
    if exact.Some? {
      DecideIs(exact, SameName(ids, provider, model), Exact);
    } else if normalized.Some? {
      DecideIs(normalized, SameNormal(ids, provider, model), Normalized);
    } else if HasDate(model) {
      DatedNothing(ids, provider, model);
    } else {
      UndatedIs(m, ids, provider, model);
      var undated := m.UndatedStage(provider, model);
      StandsSome(undated, DatedStage(ids, provider, model));
      if undated.Some? { DecideIs(undated, DatedStage(ids, provider, model), Dated); }
    }
  }

  lemma StandsSome(s: Option<Selection>, ids: set<Identity>)
    requires Stands(s, ids)
    ensures s.Some? <==> ids != {}
  {}

  lemma DatedNothing(ids: set<Identity>, provider: string, model: string)
    requires HasDate(model)
    ensures DatedStage(ids, provider, model) == {}
  {}

  /** Two matchers over the same identities answer alike, whatever the order they were fed in. */
  lemma OrderIndependent(m: Matcher, n: Matcher, ids: set<Identity>, reported: string)
    requires Indexes(m, ids) && Indexes(n, ids)
    ensures m.Resolve(reported) == n.Resolve(reported) && m.retained == n.retained
  {
    hide Matcher.Resolve;
    ResolveIsPolicy(m, ids, reported);
    ResolveIsPolicy(n, ids, reported);
  }

  /** Every indexed identity resolves from "provider/model" to itself, by the exact method. */
  lemma SelfResolves(m: Matcher, ids: set<Identity>, i: Identity)
    requires Indexes(m, ids) && i in ids
    ensures m.Resolve(i.provider + "/" + i.model) == Matched(i, Exact)
  {
    hide Matcher.Resolve;
    QualifiedScope(i.provider, i.model);
    ResolveIsPolicy(m, ids, i.provider + "/" + i.model);
    var same := SameName(ids, i.provider, i.model);
    assert i in same && forall other <- same :: other == i;
    assert same == {i};
  }

  // --------------------------------------------------------------------- building

  function Required(ids: set<Identity>): set<(Kind, string)> { KeysIn(AllFilings(ids)) }

  /** New: it succeeds exactly when the limit is not negative and holds the bytes of the
      distinct keys; it then indexes exactly the recognized candidates. */
  method New(candidates: seq<Identity>, limit: int) returns (m: Option<Matcher>)
    ensures m.Some? <==> limit >= 0 && KeyBytes(Required(Recognized(candidates))) <= limit
    ensures m.Some? ==> fresh(m.value) && Indexes(m.value, Recognized(candidates))
    ensures m.Some? ==> m.value.retained == KeyBytes(Required(Recognized(candidates)))
  {
    hide FilingsOf, KeysIn, KeyBytes, Providers, AllFilings;
    if limit < 0 {
      return None;
    }
    var matcher := new Matcher();
    NothingFiled();
    for n := 0 to |candidates|
      invariant fresh(matcher) && matcher.Valid() && matcher.retained <= limit
      invariant matcher.filings == AllFilings(Recognized(candidates[..n]))
    {
      var candidate := candidates[n];
      RecognizedStep(candidates, n);
      if candidate.provider in Providers() {
        var ok := AddCandidate(matcher, candidate, limit);
        FilingsStep(Recognized(candidates[..n]), candidate);
        if !ok {
          TooManyBytes(candidates, n + 1);
          return None;
        }
      }
    }
    assert candidates[..|candidates|] == candidates;
    RecognizedOnly(candidates);
    return Some(matcher);
  }

  lemma RecognizedOnly(candidates: seq<Identity>)
    ensures forall i <- Recognized(candidates) :: i.provider in Providers()
  {}

  lemma NothingFiled()
    ensures AllFilings(Recognized([])) == {}
  {}

  lemma RecognizedStep(candidates: seq<Identity>, n: nat)
    requires n < |candidates|
    ensures Recognized(candidates[..n + 1]) ==
      if candidates[n].provider in Providers() then Recognized(candidates[..n]) + {candidates[n]} else Recognized(candidates[..n])
  {
    assert candidates[..n + 1] == candidates[..n] + [candidates[n]];
  }

  lemma FilingsStep(ids: set<Identity>, i: Identity)
    ensures AllFilings(ids + {i}) == AllFilings(ids) + FilingsOf(i)
  {
    hide FilingsOf;
  }

  /** Some of the needed keys already exceed the limit. */
  lemma TooManyBytes(candidates: seq<Identity>, n: nat)
    requires n <= |candidates|
    ensures KeyBytes(Required(Recognized(candidates[..n]))) <= KeyBytes(Required(Recognized(candidates)))
  {
    hide FilingsOf;
    KeyBytesAtMost(Required(Recognized(candidates[..n])), Required(Recognized(candidates)));
  }

  /** The four or six additions for one candidate. */
  method AddCandidate(m: Matcher, i: Identity, limit: nat) returns (ok: bool)
    requires m.Valid() && m.retained <= limit
    modifies m
    ensures ok ==> m.Valid() && m.retained <= limit && m.filings == old(m.filings) + FilingsOf(i)
    ensures !ok ==> KeyBytes(KeysIn(old(m.filings) + FilingsOf(i))) > limit
  {
    hide FilingsOf, KeysIn, KeyBytes, Key, Normal, StripDate, Matcher.Valid;
    ghost var all := m.filings + FilingsOf(i);
    FilingsAre(i);
    ok := AddPair(m, ByName, i.model, i, limit, all);
    if !ok {
      return;
    }
    var normalized := Normalize(i.model);
    ok := AddPair(m, ByNormal, normalized, i, limit, all);
    if !ok {
      return;
    }
    var stem := StripDate(i.model);
    if stem.Some? {
      var normalizedStem := Normalize(stem.value);
      ok := AddPair(m, ByUndated, normalizedStem, i, limit, all);
    }
  }

  function PairOf(kind: Kind, name: string, i: Identity): set<Filing> {
    {Filing(kind, Key("", name), i), Filing(kind, Key(i.provider, name), i)}
  }

  lemma FilingsAre(i: Identity)
    ensures FilingsOf(i) == PairOf(ByName, i.model, i) + PairOf(ByNormal, Normal(i.model), i)
      + if StripDate(i.model).Some? then PairOf(ByUndated, Normal(StripDate(i.model).value), i) else {}
  {
    hide Normal, StripDate, Key;
  }

  /** The unqualified and the qualified key of one spelling. */
  method AddPair(m: Matcher, kind: Kind, name: string, i: Identity, limit: nat, ghost all: set<Filing>) returns (ok: bool)
    requires m.Valid() && m.retained <= limit && m.filings + PairOf(kind, name, i) <= all
    modifies m
    ensures m.Valid() && m.retained <= limit
    ensures ok ==> m.filings == old(m.filings) + PairOf(kind, name, i)
    ensures !ok ==> KeyBytes(KeysIn(all)) > limit
  {
    hide KeysIn, KeyBytes, Key, Matcher.Valid;
    ghost var was := m.filings;
    ok := m.AddSelection(kind, Key("", name), i, limit);
    if !ok {
      SomeKeys(was + {Filing(kind, Key("", name), i)}, all);
      return;
    }
    ok := m.AddSelection(kind, Key(i.provider, name), i, limit);
    if !ok {
      SomeKeys(was + {Filing(kind, Key("", name), i)} + {Filing(kind, Key(i.provider, name), i)}, all);
    }
  }

  lemma SomeKeys(some: set<Filing>, all: set<Filing>)
    requires some <= all
    ensures KeyBytes(KeysIn(some)) <= KeyBytes(KeysIn(all))
  {
    KeyBytesAtMost(KeysIn(some), KeysIn(all));
  }
}
